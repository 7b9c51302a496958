/** The request-parameter checks of later/Server/Validations.py:
    `validate_certification`, `validate_variables` and
    `_validate_variable_helper`.

    The database and the cache are inputs: `lookup(key)` is what
    `get_distinct_variables(collection, key)` returns for the collection
    being checked. The renderings Python performs (`str` of a list,
    `json.dumps` of the invalid map) are inputs too. */
module Validations {
  import opened Common

  /** What `validate_certification` and `validate_variables` return: a
      flag and, when it is false, a message. */
  datatype Verdict = Verdict(valid: bool, message: Option<string>)

  /** `validate_certification(certification)`, given the distinct
      certifications stored. */
  function ValidateCertification(certification: string, certifications: seq<string>,
                                 show: seq<string> -> string): (r: Verdict)
    ensures r.valid <==> certification in certifications
    ensures r.valid <==> r.message.None?
    ensures !r.valid ==> r.message.value == "Invalid certification: " + certification
                                            + ". Valid certifications are: " + show(certifications)
  {
    if certification !in certifications then
      Verdict(false, Some("Invalid certification: " + certification + ". Valid certifications are: " + show(certifications)))
    else Verdict(true, None)
  }

  /** What `get_distinct_variables` hands back: nothing (its failure
      path), the list of distinct values, or the text held in the cache. */
  datatype Lookup = NoVariables | Listed(values: seq<string>) | Cached(text: string)

  /** `value in variables`: list membership, or a substring test when the
      variables are cached text. */
  predicate Allowed(value: string, variables: Lookup)
    requires !variables.NoVariables?
  {
    match variables
    case Listed(values) => value in values
    case Cached(text) => Contains(text, value)
  }

  /** `str(variables)`. */
  function ShowVariables(variables: Lookup, show: seq<string> -> string): string {
    match variables
    case NoVariables => "None"
    case Listed(values) => show(values)
    case Cached(text) => text
  }

  /** `_validate_variable_helper(collection, key, value)`: the verdict and
      the name under which an error is filed, always the key itself. */
  function ValidateVariable(key: string, value: string, lookup: string -> Lookup,
                            show: seq<string> -> string): (r: (Verdict, string))
    ensures r.1 == key
    ensures r.0.valid <==> lookup(key).NoVariables? || Allowed(value, lookup(key))
    ensures r.0.valid <==> r.0.message.None?
    ensures !r.0.valid ==> r.0.message.value == "Invalid " + value + ". Valid " + key + " are: "
                                                + ShowVariables(lookup(key), show)
  {
    var variables := lookup(key);
    if variables.NoVariables? then (Verdict(true, None), key)
    else if !Allowed(value, variables) then
      (Verdict(false, Some("Invalid " + value + ". Valid " + key + " are: " + ShowVariables(variables, show))), key)
    else (Verdict(true, None), key)
  }

  /** The keys never checked: three fixed ones and the configured
      `special_processing` keys. */
  function NoCheckValidation(specialProcessing: seq<string>): (r: seq<string>)
    ensures forall k :: k in r <==> k in ["everything", "number_of_results", "distinct"] || k in specialProcessing
  {
    ["everything", "number_of_results", "distinct"] + specialProcessing
  }

  /** A keyword argument: its name and its value, `None` or a text. */
  type Argument = (string, Option<string>)

  /** The invalid map `validate_variables` builds from the arguments, in
      the order it fills it: name and error message. */
  function InvalidVariables(kwargs: seq<Argument>, noCheck: seq<string>, lookup: string -> Lookup,
                            show: seq<string> -> string): (r: seq<(string, string)>)
    ensures |r| <= |kwargs|
    ensures forall i :: 0 <= i < |r| ==> r[i].0 !in noCheck
    decreases |kwargs|
  {
    if kwargs == [] then []
    else
      var earlier := InvalidVariables(kwargs[..|kwargs| - 1], noCheck, lookup, show);
      var (key, value) := kwargs[|kwargs| - 1];
      if key in noCheck || value.None? then earlier
      else
        var (verdict, varName) := ValidateVariable(key, value.value, lookup, show);
        if verdict.valid then earlier else earlier + [(varName, verdict.message.value)]
  }

  /** What `validate_variables` returns: `(False, json.dumps(invalid))`
      when something is invalid, `(True, None)` otherwise. */
  function ValidationOf(kwargs: seq<Argument>, specialProcessing: seq<string>, lookup: string -> Lookup,
                        show: seq<string> -> string, dumps: seq<(string, string)> -> string): (r: Verdict)
    ensures r.valid <==> r.message.None?
    ensures kwargs == [] ==> r == Verdict(true, None)
  {
    var invalid := InvalidVariables(kwargs, NoCheckValidation(specialProcessing), lookup, show);
    if |invalid| > 0 then Verdict(false, Some(dumps(invalid))) else Verdict(true, None)
  }

  /** `validate_variables(collection, **kwargs)`. */
  method ValidateVariables(kwargs: seq<Argument>, specialProcessing: seq<string>, lookup: string -> Lookup,
                           show: seq<string> -> string, dumps: seq<(string, string)> -> string)
    returns (r: Verdict)
    ensures r == ValidationOf(kwargs, specialProcessing, lookup, show, dumps)
  {
    var noCheck := ["everything", "number_of_results", "distinct"];
    noCheck := noCheck + specialProcessing;
    var invalid: seq<(string, string)> := [];
    var i := 0;
    while i < |kwargs|
      invariant 0 <= i <= |kwargs|
      invariant invalid == InvalidVariables(kwargs[..i], noCheck, lookup, show)
    {
      assert kwargs[..i + 1][..i] == kwargs[..i];
      var (key, value) := kwargs[i];
      if key !in noCheck && value.Some? {
        var (verdict, varName) := ValidateVariable(key, value.value, lookup, show);
        if !verdict.valid {
          invalid := invalid + [(varName, verdict.message.value)];
        }
      }
      i := i + 1;
    }
    assert kwargs[..i] == kwargs;
    if |invalid| > 0 {
      return Verdict(false, Some(dumps(invalid)));
    }
    r := Verdict(true, None);
  }

  // ---------------------------------------------------------------------
  // Properties
  // ---------------------------------------------------------------------

  /** An argument is filed as invalid exactly when it is checked (not in
      the no-check list, not `None`), the lookup gave variables, and its
      value is not among them; the message names the value, the key and
      the valid values. */
  lemma {:induction false} InvalidIff(kwargs: seq<Argument>, noCheck: seq<string>, lookup: string -> Lookup,
                                      show: seq<string> -> string, name: string, message: string)
    ensures (name, message) in InvalidVariables(kwargs, noCheck, lookup, show) <==>
              exists i :: 0 <= i < |kwargs| && kwargs[i].0 == name && name !in noCheck
                          && kwargs[i].1.Some? && !lookup(name).NoVariables?
                          && !Allowed(kwargs[i].1.value, lookup(name))
                          && message == "Invalid " + kwargs[i].1.value + ". Valid " + name + " are: "
                                        + ShowVariables(lookup(name), show)
    decreases |kwargs|
  {
    if kwargs != [] {
      var front := kwargs[..|kwargs| - 1];
      InvalidIff(front, noCheck, lookup, show, name, message);
      var n := |kwargs| - 1;
      forall i | 0 <= i < n
        ensures kwargs[i] == front[i]
      {
      }
    }
  }

  /** The call succeeds exactly when no argument is invalid; a key in the
      no-check list or with value `None` never makes it fail. */
  lemma {:induction false} SkippedArgumentsNeverFail(kwargs: seq<Argument>, noCheck: seq<string>,
                                                     lookup: string -> Lookup, show: seq<string> -> string)
    requires forall i :: 0 <= i < |kwargs| ==> kwargs[i].0 in noCheck || kwargs[i].1.None?
    ensures InvalidVariables(kwargs, noCheck, lookup, show) == []
    decreases |kwargs|
  {
    if kwargs != [] {
      SkippedArgumentsNeverFail(kwargs[..|kwargs| - 1], noCheck, lookup, show);
    }
  }

  /** When the database lookup gave nothing, every value is accepted. */
  lemma {:induction false} MissingLookupAcceptsAll(kwargs: seq<Argument>, specialProcessing: seq<string>,
                                                   lookup: string -> Lookup, show: seq<string> -> string,
                                                   dumps: seq<(string, string)> -> string)
    requires forall k :: lookup(k).NoVariables?
    ensures ValidationOf(kwargs, specialProcessing, lookup, show, dumps) == Verdict(true, None)
  {
    var invalid := InvalidVariables(kwargs, NoCheckValidation(specialProcessing), lookup, show);
    if |invalid| > 0 {
      var (name, message) := invalid[0];
      InvalidIff(kwargs, NoCheckValidation(specialProcessing), lookup, show, name, message);
      assert false;
    }
  }

  /** The verdict fails, with the rendering of the invalid map, exactly
      when some argument is invalid. */
  lemma ValidationFailsIffInvalid(kwargs: seq<Argument>, specialProcessing: seq<string>,
                                  lookup: string -> Lookup, show: seq<string> -> string,
                                  dumps: seq<(string, string)> -> string)
    ensures var v := ValidationOf(kwargs, specialProcessing, lookup, show, dumps);
            var invalid := InvalidVariables(kwargs, NoCheckValidation(specialProcessing), lookup, show);
            (!v.valid <==> invalid != []) && (!v.valid ==> v.message == Some(dumps(invalid)))
            && (v.valid ==> v.message.None?)
  {
  }

  /** Against cached text the membership test is a substring test: a
      fragment of an allowed value passes. */
  lemma CachedTextAcceptsFragments()
    ensures ValidateVariable("unit", "Pat", (k: string) => Cached("[\"Patrol\", \"K9\"]"), (vs: seq<string>) => "").0.valid
  {
    assert OccursAt("[\"Patrol\", \"K9\"]", "Pat", 2);
  }
}
