/**
  The `{{key}}` substitution of `translateString`, shared by both translator
  generations: each params entry, in insertion order, rewrites the current
  result with `result.split('{{' + key + '}}').join(value)`.
 */
module Templates {
  import opened Wrappers
  import opened Text

  /** A `params` object, as the list of its entries in insertion order (values already strings). */
  type Params = seq<(string, string)>

  /** What `translateString` hands back: a string, `undefined`, or a thrown TypeError. */
  datatype Outcome = Value(text: string) | Undefined | TypeError

  /** The marker `{{key}}` that a params entry replaces. */
  function Placeholder(key: string): (p: string)
    ensures |p| == |key| + 4
  {
    "{{" + key + "}}"
  }

  /** One step of the forEach: `result.split('{{key}}').join(value)`. */
  function Substitute(s: string, key: string, value: string): string
  {
    ReplaceAll(s, Placeholder(key), value)
  }

  /** Every params entry applied to `s`, first entry first. */
  function ApplyAll(s: string, params: Params): string
    decreases |params|
  {
    if |params| == 0 then s
    else
      var (key, value) := params[|params| - 1];
      Substitute(ApplyAll(s, params[..|params| - 1]), key, value)
  }

  /**
    `translateString` once the table entry has been looked up: a missing entry
    is `undefined`, and calling `split` on `undefined` (at the first params
    entry) throws; no params, or an empty params object, returns the entry
    untouched.
   */
  function Translate(entry: Option<string>, params: Option<Params>): (r: Outcome)
    ensures r.TypeError? <==> entry.None? && params.Some? && |params.value| > 0
    ensures r.Undefined? <==> entry.None? && (params.None? || |params.value| == 0)
    ensures r.Value? ==> entry.Some?
  {
    if entry.None? then
      if params.Some? && |params.value| > 0 then TypeError else Undefined
    else if params.None? then Value(entry.value)
    else Value(ApplyAll(entry.value, params.value))
  }

  /** The body of `translateString` after the lookup: rewrite the result once per params entry. */
  method TranslateIn(entry: Option<string>, params: Option<Params>) returns (r: Outcome)
    ensures r == Translate(entry, params)
  {
    r := if entry.Some? then Value(entry.value) else Undefined;
    if params.Some? {
      var entries := params.value;
      var i := 0;
      while i < |entries|
        invariant 0 <= i <= |entries|
        invariant i == 0 ==> r == (if entry.Some? then Value(entry.value) else Undefined)
        invariant i > 0 ==> r == (if entry.Some? then Value(ApplyAll(entry.value, entries[..i])) else TypeError)
      {
        var (k, v) := entries[i];
        assert entries[..i + 1][..i] == entries[..i];
        if r.Value? {
          r := Value(Substitute(r.text, k, v));
        } else {
          r := TypeError;
        }
        i := i + 1;
      }
      assert entries[..|entries|] == entries;
      if entry.Some? && i == 0 {
        assert ApplyAll(entry.value, entries) == entry.value;
      }
    }
  }

  /**
    A substitution replaces every occurrence: the string is cut into pieces
    free of `{{key}}` that spell the original when glued with the marker and
    the result when glued with the value.
   */
  lemma SubstituteReplacesEveryOccurrence(s: string, key: string, value: string)
    ensures exists pieces: seq<string> ::
              Join(pieces, Placeholder(key)) == s
              && (forall k | 0 <= k < |pieces| :: !Contains(pieces[k], Placeholder(key)))
              && Substitute(s, key, value) == Join(pieces, value)
  {
    var p := Placeholder(key);
    var pieces := Split(s, p);
    JoinSplit(s, p);
    SplitPartsAvoidSeparator(s, p);
  }

  /** A string without the marker comes back unchanged from the split and join. */
  lemma SubstituteWithoutPlaceholder(s: string, key: string, value: string)
    requires !Contains(s, Placeholder(key))
    ensures Substitute(s, key, value) == s
  {
    SplitWithoutOccurrence(s, Placeholder(key));
  }

  /** The bare marker becomes exactly the value. */
  lemma SubstitutePlaceholder(key: string, value: string)
    ensures Substitute(Placeholder(key), key, value) == value
  {
    var p := Placeholder(key);
    assert p[..|p|] == p;
    assert p[|p|..] == "";
    assert Split("", p) == [""];
    assert Split(p, p) == ["", ""];
    assert ["", ""][1..] == [""];
    assert Join(["", ""], value) == "" + value + Join([""], value);
  }

  /** A template that ends in the marker, with no brace before it, gets the value appended in its place. */
  lemma SubstituteTrailingPlaceholder(prefix: string, key: string, value: string)
    requires '{' !in prefix
    ensures Substitute(prefix + Placeholder(key), key, value) == prefix + value
  {
    assert Placeholder(key)[0] == '{';
    SplitAtTrailingSeparator(prefix, Placeholder(key));
    assert [prefix, ""][1..] == [""];
    assert Join([prefix, ""], value) == prefix + value + Join([""], value);
  }

  /** A template that mentions none of the params' markers is returned unchanged. */
  lemma {:induction false} ApplyAllWithoutPlaceholders(s: string, params: Params)
    requires forall i | 0 <= i < |params| :: !Contains(s, Placeholder(params[i].0))
    ensures ApplyAll(s, params) == s
    decreases |params|
  {
    if |params| > 0 {
      var (key, value) := params[|params| - 1];
      ApplyAllWithoutPlaceholders(s, params[..|params| - 1]);
      SubstituteWithoutPlaceholder(s, key, value);
    }
  }

  /** Params are applied in order: a value that mentions a later key is itself substituted. */
  lemma ChainedParams(first: string, second: string, value: string)
    ensures ApplyAll(Placeholder(first), [(first, Placeholder(second)), (second, value)]) == value
  {
    var params := [(first, Placeholder(second)), (second, value)];
    assert params[..1] == [(first, Placeholder(second))];
    assert params[..1][..0] == [];
    SubstitutePlaceholder(first, Placeholder(second));
    assert ApplyAll(Placeholder(first), params[..1]) == Placeholder(second);
    SubstitutePlaceholder(second, value);
  }

  /** In the opposite order the earlier substitution cannot see the marker the later value brings. */
  lemma ParamsOrderMatters(first: string, second: string, value: string)
    requires !Contains(Placeholder(first), Placeholder(second))
    ensures ApplyAll(Placeholder(first), [(second, value), (first, Placeholder(second))]) == Placeholder(second)
  {
    var params := [(second, value), (first, Placeholder(second))];
    assert params[..1] == [(second, value)];
    assert params[..1][..0] == [];
    SubstituteWithoutPlaceholder(Placeholder(first), second, value);
    assert ApplyAll(Placeholder(first), params[..1]) == Placeholder(first);
    SubstitutePlaceholder(first, Placeholder(second));
  }
}
