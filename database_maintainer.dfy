/** The chat-history retention job of
    later/Server/TimerJobs/DatabaseMaintainer.py: `_clean_chat_history`
    keeps, for every user, only the `max_chat_history_length` newest
    entries of the `chat_history` collection and deletes the rest one
    document at a time.

    The collection is a field of the maintainer, a sequence of documents in
    storage order; MongoDB's `_id` is unique. Ties between equal timestamps
    are broken by storage order. */
module DatabaseMaintainer {

  /** A `chat_history` document: its `_id`, `user_id` and `timestamp`. */
  datatype ChatRecord = ChatRecord(id: nat, userId: string, timestamp: int)

  predicate UniqueIds(rs: seq<ChatRecord>) {
    forall i, j :: 0 <= i < j < |rs| ==> rs[i].id != rs[j].id
  }

  /** Dropping the first document keeps `_id`s unique, and no later
      document shares the first one's `_id`. */
  lemma UniqueTail(rs: seq<ChatRecord>)
    requires rs != []
    ensures UniqueIds(rs) ==> UniqueIds(rs[1..]) && forall x :: x in rs[1..] ==> x.id != rs[0].id
  {
    if UniqueIds(rs) {
      forall x | x in rs[1..] ensures x.id != rs[0].id {
        var k :| 0 <= k < |rs[1..]| && rs[1..][k] == x;
        assert rs[k + 1] == x;
      }
    }
  }

  /** A document in front of documents with other `_id`s keeps them unique. */
  lemma ConsUnique(x: ChatRecord, rest: seq<ChatRecord>)
    ensures UniqueIds(rest) && (forall y :: y in rest ==> y.id != x.id) ==> UniqueIds([x] + rest)
  {
    if UniqueIds(rest) && (forall y :: y in rest ==> y.id != x.id) {
      var r := [x] + rest;
      forall i, j | 0 <= i < j < |r| ensures r[i].id != r[j].id {
        assert r[j] == rest[j - 1];
        if i > 0 { assert r[i] == rest[i - 1]; } else { assert rest[j - 1] in rest; }
      }
    }
  }

  /** `find({'user_id': u})`: the user's documents, in storage order. */
  function OfUser(rs: seq<ChatRecord>, u: string): (r: seq<ChatRecord>)
    ensures forall x :: x in r <==> x in rs && x.userId == u
    ensures UniqueIds(rs) ==> UniqueIds(r)
    decreases |rs|
  {
    if rs == [] then []
    else
      var rest := OfUser(rs[1..], u);
      assert rs == [rs[0]] + rs[1..];
      UniqueTail(rs);
      ConsUnique(rs[0], rest);
      if rs[0].userId == u then [rs[0]] + rest else rest
  }

  /** The documents whose `_id` is not in `ids`. */
  function Without(rs: seq<ChatRecord>, ids: set<nat>): (r: seq<ChatRecord>)
    ensures forall x :: x in r <==> x in rs && x.id !in ids
    ensures UniqueIds(rs) ==> UniqueIds(r)
    decreases |rs|
  {
    if rs == [] then []
    else
      var rest := Without(rs[1..], ids);
      assert rs == [rs[0]] + rs[1..];
      UniqueTail(rs);
      ConsUnique(rs[0], rest);
      if rs[0].id in ids then rest else [rs[0]] + rest
  }

  function Ids(rs: seq<ChatRecord>): set<nat> {
    set x | x in rs :: x.id
  }

  // ---------------------------------------------------------------------
  // Sorting by descending timestamp
  // ---------------------------------------------------------------------

  predicate NewestFirst(s: seq<ChatRecord>) {
    forall i, j :: 0 <= i < j < |s| ==> s[i].timestamp >= s[j].timestamp
  }

  function Insert(x: ChatRecord, s: seq<ChatRecord>): (r: seq<ChatRecord>)
    ensures multiset(r) == multiset(s) + multiset{x}
    decreases |s|
  {
    if s == [] then [x]
    else if s[0].timestamp <= x.timestamp then [x] + s
    else assert s == [s[0]] + s[1..]; [s[0]] + Insert(x, s[1..])
  }

  /** Inserting adds `x` and nothing else. */
  lemma InsertMembers(x: ChatRecord, s: seq<ChatRecord>)
    ensures forall y :: y in Insert(x, s) ==> y == x || y in s
  {
    forall y | y in Insert(x, s) ensures y == x || y in s {
      assert y in multiset(Insert(x, s));
    }
  }

  /** A document no older than every document of `s` may lead it. */
  lemma LeadNewestFirst(x: ChatRecord, s: seq<ChatRecord>)
    requires NewestFirst(s)
    requires forall y :: y in s ==> x.timestamp >= y.timestamp
    ensures NewestFirst([x] + s)
  {
    var out := [x] + s;
    forall i, j | 0 <= i < j < |out| ensures out[i].timestamp >= out[j].timestamp {
      assert out[j] == s[j - 1];
      if i > 0 { assert out[i] == s[i - 1]; } else { assert s[j - 1] in s; }
    }
  }

  lemma {:induction false} InsertNewestFirst(x: ChatRecord, s: seq<ChatRecord>)
    requires NewestFirst(s)
    ensures NewestFirst(Insert(x, s))
    decreases |s|
  {
    if s == [] {
    } else if s[0].timestamp <= x.timestamp {
      forall y | y in s ensures x.timestamp >= y.timestamp {
        var k :| 0 <= k < |s| && s[k] == y;
      }
      LeadNewestFirst(x, s);
    } else {
      var tail := s[1..];
      assert NewestFirst(tail) by {
        forall i, j | 0 <= i < j < |tail| ensures tail[i].timestamp >= tail[j].timestamp {
          assert tail[i] == s[i + 1] && tail[j] == s[j + 1];
        }
      }
      InsertNewestFirst(x, tail);
      InsertMembers(x, tail);
      forall y | y in Insert(x, tail) ensures s[0].timestamp >= y.timestamp {
        if y != x {
          var k :| 0 <= k < |tail| && tail[k] == y;
          assert s[k + 1] == y;
        }
      }
      LeadNewestFirst(s[0], Insert(x, tail));
    }
  }

  /** `sort('timestamp', -1)`: newest first, equal timestamps in storage
      order. */
  function SortNewestFirst(s: seq<ChatRecord>): (r: seq<ChatRecord>)
    ensures multiset(r) == multiset(s)
    ensures |r| == |s|
    decreases |s|
  {
    if s == [] then [] else assert s == [s[0]] + s[1..]; Insert(s[0], SortNewestFirst(s[1..]))
  }

  lemma {:induction false} SortIsNewestFirst(s: seq<ChatRecord>)
    ensures NewestFirst(SortNewestFirst(s))
    decreases |s|
  {
    if s != [] {
      SortIsNewestFirst(s[1..]);
      InsertNewestFirst(s[0], SortNewestFirst(s[1..]));
    }
  }

  // ---------------------------------------------------------------------
  // What the job deletes
  // ---------------------------------------------------------------------

  /** A user's documents, newest first. */
  function Ranked(rs: seq<ChatRecord>, u: string): seq<ChatRecord> {
    SortNewestFirst(OfUser(rs, u))
  }

  /** The ranked documents are the user's documents. */
  lemma RankedMembers(rs: seq<ChatRecord>, u: string)
    ensures |Ranked(rs, u)| == |OfUser(rs, u)|
    ensures forall x :: x in Ranked(rs, u) ==> x in rs && x.userId == u
  {
    var ranked := Ranked(rs, u);
    forall x | x in ranked ensures x in rs && x.userId == u {
      assert x in multiset(ranked);
      assert x in multiset(OfUser(rs, u));
    }
  }

  function Cut(n: nat, maxLength: nat): nat {
    if n < maxLength then n else maxLength
  }

  /** The cursor after `skip(max)`: the user's documents past the newest
      `max`. */
  function Surplus(rs: seq<ChatRecord>, u: string, maxLength: nat): (r: seq<ChatRecord>)
    ensures forall x :: x in r ==> x in rs && x.userId == u
    ensures |r| == |OfUser(rs, u)| - Cut(|OfUser(rs, u)|, maxLength)
  {
    var ranked := Ranked(rs, u);
    RankedMembers(rs, u);
    var r := ranked[Cut(|ranked|, maxLength)..];
    assert forall x :: x in r ==> x in ranked;
    r
  }

  /** The user's newest `max` documents. */
  function Retained(rs: seq<ChatRecord>, u: string, maxLength: nat): (r: seq<ChatRecord>)
    ensures |r| <= maxLength
    ensures r + Surplus(rs, u, maxLength) == Ranked(rs, u)
  {
    var ranked := Ranked(rs, u);
    assert ranked[..Cut(|ranked|, maxLength)] + ranked[Cut(|ranked|, maxLength)..] == ranked;
    ranked[..Cut(|ranked|, maxLength)]
  }

  /** `distinct('user_id')`, in order of first appearance. */
  function Users(rs: seq<ChatRecord>): (r: seq<string>)
    ensures forall u :: u in r <==> exists x :: x in rs && x.userId == u
    ensures forall i, j :: 0 <= i < j < |r| ==> r[i] != r[j]
    decreases |rs|
  {
    if rs == [] then []
    else
      var earlier := Users(rs[..|rs| - 1]);
      var last := rs[|rs| - 1];
      assert forall x :: x in rs <==> x in rs[..|rs| - 1] || x == last by {
        assert rs == rs[..|rs| - 1] + [last];
      }
      if last.userId in earlier then earlier else earlier + [last.userId]
  }

  /** The `_id`s the job deletes for the listed users. */
  function SurplusIds(rs: seq<ChatRecord>, users: seq<string>, maxLength: nat): (r: set<nat>)
    ensures forall id :: id in r <==> exists w :: w in users && id in Ids(Surplus(rs, w, maxLength))
    decreases |users|
  {
    if users == [] then {}
    else
      var front := users[..|users| - 1];
      assert forall w :: w in users <==> w in front || w == users[|users| - 1] by {
        assert users == front + [users[|users| - 1]];
      }
      SurplusIds(rs, front, maxLength) + Ids(Surplus(rs, users[|users| - 1], maxLength))
  }

  /** The collection once the job has run. */
  function Cleaned(rs: seq<ChatRecord>, maxLength: nat): (r: seq<ChatRecord>)
    ensures forall x :: x in r ==> x in rs
    ensures UniqueIds(rs) ==> UniqueIds(r)
  {
    Without(rs, SurplusIds(rs, Users(rs), maxLength))
  }

  // ---------------------------------------------------------------------
  // Helper lemmas
  // ---------------------------------------------------------------------

  lemma {:induction false} WithoutTwice(rs: seq<ChatRecord>, a: set<nat>, b: set<nat>)
    ensures Without(Without(rs, a), b) == Without(rs, a + b)
    decreases |rs|
  {
    if rs != [] {
      WithoutTwice(rs[1..], a, b);
    }
  }

  lemma {:induction false} OfUserWithout(rs: seq<ChatRecord>, ids: set<nat>, u: string)
    ensures OfUser(Without(rs, ids), u) == Without(OfUser(rs, u), ids)
    decreases |rs|
  {
    if rs != [] {
      OfUserWithout(rs[1..], ids, u);
    }
  }

  lemma {:induction false} WithoutNothing(rs: seq<ChatRecord>, ids: set<nat>)
    requires forall x :: x in rs ==> x.id !in ids
    ensures Without(rs, ids) == rs
    decreases |rs|
  {
    if rs != [] {
      assert rs[0].id !in ids by {
        assert rs[0] in rs;
      }
      assert Without(rs, ids) == [rs[0]] + Without(rs[1..], ids);
      assert forall x :: x in rs[1..] ==> x in rs;
      WithoutNothing(rs[1..], ids);
      assert rs == [rs[0]] + rs[1..];
    }
  }

  lemma IdsSnoc(cursor: seq<ChatRecord>, j: nat)
    requires j < |cursor|
    ensures Ids(cursor[..j + 1]) == Ids(cursor[..j]) + {cursor[j].id}
  {
    assert cursor[..j + 1] == cursor[..j] + [cursor[j]];
  }

  lemma SurplusIdsStep(rs: seq<ChatRecord>, users: seq<string>, k: nat, maxLength: nat)
    requires k < |users|
    ensures SurplusIds(rs, users[..k + 1], maxLength) == SurplusIds(rs, users[..k], maxLength) + Ids(Surplus(rs, users[k], maxLength))
  {
    assert users[..k + 1][..k] == users[..k];
  }

  /** Every document the job ranks for `w` belongs to `w`. */
  lemma RankedBelongs(rs: seq<ChatRecord>, w: string, x: ChatRecord)
    requires x in Ranked(rs, w)
    ensures x in rs && x.userId == w
  {
    assert x in multiset(Ranked(rs, w));
  }

  /** With unique `_id`s, a document whose `_id` is in `w`'s surplus is in
      that surplus. */
  lemma IdOwner(rs: seq<ChatRecord>, w: string, maxLength: nat, x: ChatRecord)
    requires UniqueIds(rs) && x in rs
    requires x.id in Ids(Surplus(rs, w, maxLength))
    ensures x in Surplus(rs, w, maxLength) && x.userId == w
  {
    var s := Surplus(rs, w, maxLength);
    var y :| y in s && y.id == x.id;
    RankedBelongs(rs, w, y);
    var i :| 0 <= i < |rs| && rs[i] == x;
    var j :| 0 <= j < |rs| && rs[j] == y;
  }

  /** The surplus of other users never touches `u`'s documents. */
  lemma ForeignIds(rs: seq<ChatRecord>, users: seq<string>, maxLength: nat, u: string)
    requires UniqueIds(rs) && u !in users
    ensures forall x :: x in OfUser(rs, u) ==> x.id !in SurplusIds(rs, users, maxLength)
  {
    forall x | x in OfUser(rs, u)
      ensures x.id !in SurplusIds(rs, users, maxLength)
    {
      if x.id in SurplusIds(rs, users, maxLength) {
        var w :| w in users && x.id in Ids(Surplus(rs, w, maxLength));
        IdOwner(rs, w, maxLength, x);
      }
    }
  }

  /** Deleting other users' surplus leaves `u`'s cursor as it was. */
  lemma SurplusUnaffected(rs: seq<ChatRecord>, users: seq<string>, maxLength: nat, u: string)
    requires UniqueIds(rs) && u !in users
    ensures Surplus(Without(rs, SurplusIds(rs, users, maxLength)), u, maxLength) == Surplus(rs, u, maxLength)
  {
    var ids := SurplusIds(rs, users, maxLength);
    OfUserWithout(rs, ids, u);
    ForeignIds(rs, users, maxLength, u);
    WithoutNothing(OfUser(rs, u), ids);
  }

  // ---------------------------------------------------------------------
  // The maintainer
  // ---------------------------------------------------------------------

  class Maintainer {
    /** `self.db is not None`. */
    var connected: bool
    /** The `chat_history` collection, in storage order. */
    var chatHistory: seq<ChatRecord>

    predicate Valid()
      reads this
    {
      UniqueIds(chatHistory)
    }

    constructor(connected: bool, chatHistory: seq<ChatRecord>)
      requires UniqueIds(chatHistory)
      ensures Valid()
      ensures this.connected == connected && this.chatHistory == chatHistory
    {
      this.connected := connected;
      this.chatHistory := chatHistory;
    }

    /** `delete_one({'_id': id})`; `_id`s are unique, so this removes the
        one document with that `_id`, if any. */
    method DeleteOne(id: nat)
      modifies this`chatHistory
      ensures chatHistory == Without(old(chatHistory), {id})
    {
      chatHistory := Without(chatHistory, {id});
    }

    /** The inner loop: `delete_one` for every document of the cursor. */
    method DeleteEach(cursor: seq<ChatRecord>)
      modifies this`chatHistory
      ensures chatHistory == Without(old(chatHistory), Ids(cursor))
    {
      ghost var before := chatHistory;
      WithoutNothing(before, {});
      assert Ids(cursor[..0]) == {};
      var j := 0;
      while j < |cursor|
        invariant 0 <= j <= |cursor|
        invariant chatHistory == Without(before, Ids(cursor[..j]))
      {
        DeleteOne(cursor[j].id);
        WithoutTwice(before, Ids(cursor[..j]), {cursor[j].id});
        IdsSnoc(cursor, j);
        j := j + 1;
      }
      assert cursor[..j] == cursor;
    }

    /** `_clean_chat_history(max_chat_history_length)`. */
    method CleanChatHistory(maxLength: nat)
      requires Valid()
      modifies this`chatHistory
      ensures Valid()
      ensures !connected ==> chatHistory == old(chatHistory)
      ensures connected ==> chatHistory == Cleaned(old(chatHistory), maxLength)
    {
      if !connected {
        return;
      }
      ghost var start := chatHistory;
      WithoutNothing(start, {});
      var users := Users(chatHistory);
      var k := 0;
      while k < |users|
        invariant 0 <= k <= |users|
        invariant chatHistory == Without(start, SurplusIds(start, users[..k], maxLength))
      {
        var u := users[k];
        assert u !in users[..k];
        var cursor := Surplus(chatHistory, u, maxLength);
        SurplusUnaffected(start, users[..k], maxLength, u);
        DeleteEach(cursor);
        WithoutTwice(start, SurplusIds(start, users[..k], maxLength), Ids(cursor));
        SurplusIdsStep(start, users, k, maxLength);
        k := k + 1;
      }
      assert users[..k] == users;
    }
  }

  // ---------------------------------------------------------------------
  // Properties
  // ---------------------------------------------------------------------

  /** A document is deleted exactly when it is in its own user's surplus. */
  lemma DeletedIffSurplus(rs: seq<ChatRecord>, maxLength: nat, x: ChatRecord)
    requires UniqueIds(rs) && x in rs
    ensures x !in Cleaned(rs, maxLength) <==> x in Surplus(rs, x.userId, maxLength)
  {
    var ids := SurplusIds(rs, Users(rs), maxLength);
    if x.id in ids {
      var w :| w in Users(rs) && x.id in Ids(Surplus(rs, w, maxLength));
      IdOwner(rs, w, maxLength, x);
    }
    if x in Surplus(rs, x.userId, maxLength) {
      assert x.userId in Users(rs);
      assert x.id in Ids(Surplus(rs, x.userId, maxLength));
    }
  }

  /** A distinct sequence drawn from a set is no longer than the set. */
  lemma {:induction false} DistinctWithin(s: seq<ChatRecord>, t: set<ChatRecord>)
    requires forall i, j :: 0 <= i < j < |s| ==> s[i] != s[j]
    requires forall x :: x in s ==> x in t
    ensures |s| <= |t|
    decreases |s|
  {
    if s != [] {
      forall x | x in s[1..] ensures x in t - {s[0]} {
        var m :| 0 <= m < |s[1..]| && s[1..][m] == x;
        assert s[m + 1] == x;
      }
      DistinctWithin(s[1..], t - {s[0]});
    }
  }

  lemma {:induction false} SetOfSeq(s: seq<ChatRecord>)
    ensures |set x | x in s| <= |s|
    decreases |s|
  {
    if s != [] {
      SetOfSeq(s[1..]);
      assert (set x | x in s) == (set x | x in s[1..]) + {s[0]};
    }
  }

  /** A document the job keeps is among its user's newest `max`. */
  lemma KeptIsRetained(rs: seq<ChatRecord>, maxLength: nat, x: ChatRecord)
    requires UniqueIds(rs) && x in Cleaned(rs, maxLength)
    ensures x in Retained(rs, x.userId, maxLength)
  {
    var u := x.userId;
    assert x in rs;
    DeletedIffSurplus(rs, maxLength, x);
    InRanked(rs, x);
    SplitRanked(rs, u, maxLength, x);
  }

  lemma InRanked(rs: seq<ChatRecord>, x: ChatRecord)
    requires x in rs
    ensures x in Ranked(rs, x.userId)
  {
    assert x in OfUser(rs, x.userId);
    assert x in multiset(OfUser(rs, x.userId));
  }

  lemma SplitRanked(rs: seq<ChatRecord>, u: string, maxLength: nat, x: ChatRecord)
    requires x in Ranked(rs, u)
    ensures x in Retained(rs, u, maxLength) || x in Surplus(rs, u, maxLength)
  {
    var ranked := Ranked(rs, u);
    var c := Cut(|ranked|, maxLength);
    assert ranked == ranked[..c] + ranked[c..];
  }

  /** Afterwards no user has more than `max` documents. */
  lemma AtMostMaxPerUser(rs: seq<ChatRecord>, maxLength: nat, u: string)
    requires UniqueIds(rs)
    ensures |OfUser(Cleaned(rs, maxLength), u)| <= maxLength
  {
    var kept := OfUser(Cleaned(rs, maxLength), u);
    var retained := Retained(rs, u, maxLength);
    forall x | x in kept ensures x in (set y | y in retained) {
      KeptIsRetained(rs, maxLength, x);
    }
    forall i, j | 0 <= i < j < |kept| ensures kept[i] != kept[j] {
      assert kept[i].id != kept[j].id;
    }
    DistinctWithin(kept, set y | y in retained);
    SetOfSeq(retained);
  }

  /** Every document kept is at least as new as every document of the same
      user that was deleted. */
  lemma NewestRetained(rs: seq<ChatRecord>, maxLength: nat, x: ChatRecord, y: ChatRecord)
    requires UniqueIds(rs) && x in Cleaned(rs, maxLength)
    requires y in rs && y.userId == x.userId && y !in Cleaned(rs, maxLength)
    ensures x.timestamp >= y.timestamp
  {
    var u := x.userId;
    KeptIsRetained(rs, maxLength, x);
    DeletedIffSurplus(rs, maxLength, y);
    RetainedNewer(rs, u, maxLength, x, y);
  }

  lemma RetainedNewer(rs: seq<ChatRecord>, u: string, maxLength: nat, x: ChatRecord, y: ChatRecord)
    requires x in Retained(rs, u, maxLength) && y in Surplus(rs, u, maxLength)
    ensures x.timestamp >= y.timestamp
  {
    var ranked := Ranked(rs, u);
    var c := Cut(|ranked|, maxLength);
    var i :| 0 <= i < c && ranked[..c][i] == x;
    var j :| 0 <= j < |ranked| - c && ranked[c..][j] == y;
    assert ranked[i] == x && ranked[c + j] == y;
    SortIsNewestFirst(OfUser(rs, u));
  }

  /** A user with at most `max` documents keeps them all. */
  lemma SmallHistoriesKept(rs: seq<ChatRecord>, maxLength: nat, u: string)
    requires UniqueIds(rs) && |OfUser(rs, u)| <= maxLength
    ensures OfUser(Cleaned(rs, maxLength), u) == OfUser(rs, u)
  {
    var ids := SurplusIds(rs, Users(rs), maxLength);
    OfUserWithout(rs, ids, u);
    forall x | x in OfUser(rs, u) ensures x.id !in ids {
      DeletedIffSurplus(rs, maxLength, x);
      assert Surplus(rs, u, maxLength) == [];
    }
    WithoutNothing(OfUser(rs, u), ids);
  }

  /** The job adds nothing, and every document outside its own user's
      surplus survives it. */
  lemma CleanedKeepsNonSurplus(rs: seq<ChatRecord>, maxLength: nat)
    requires UniqueIds(rs)
    ensures forall x :: x in Cleaned(rs, maxLength) ==> x in rs
    ensures forall x :: x in rs && x !in Surplus(rs, x.userId, maxLength) ==> x in Cleaned(rs, maxLength)
  {
    forall x | x in rs && x !in Surplus(rs, x.userId, maxLength)
      ensures x in Cleaned(rs, maxLength)
    {
      DeletedIffSurplus(rs, maxLength, x);
    }
  }
}
