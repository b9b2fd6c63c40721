/**
 * `string.Template` as the script uses it: a template is a sequence of literal
 * text and named `${...}` placeholders, and `substitute` replaces every
 * placeholder by its value from the keyword arguments, or raises `KeyError`
 * for the first (leftmost) placeholder that has no value.
 */
module Templates {
  import opened Seqs

  datatype Segment = Lit(text: string) | Hole(key: string)

  type Template = seq<Segment>

  /** The outcome of `Template.substitute`: the filled text, or the `KeyError` it raises. */
  datatype Substituted = Ok(text: string) | KeyError(key: string)

  /** Every placeholder of `t` is named in `keys`. */
  predicate UsesOnly(t: Template, keys: set<string>)
  {
    forall i :: 0 <= i < |t| && t[i].Hole? ==> t[i].key in keys
  }

  /** `Template(t).substitute(**mapping)` */
  function Substitute(t: Template, mapping: map<string, string>): (r: Substituted)
    ensures r.Ok? <==> UsesOnly(t, mapping.Keys)
    ensures r.KeyError? ==> r.key !in mapping && Hole(r.key) in t
  {
    if t == [] then Ok([])
    else
      var rest := Substitute(t[1..], mapping);
      match t[0]
      case Lit(s) =>
        if rest.Ok? then Ok(s + rest.text) else rest
      case Hole(k) =>
        if k !in mapping then KeyError(k)
        else if rest.Ok? then Ok(mapping[k] + rest.text) else rest
  }

  /**
   * The error names the leftmost placeholder without a value, as
   * `string.Template` scans its text from left to right.
   */
  lemma {:induction false} SubstituteFirstMissing(t: Template, mapping: map<string, string>, i: nat)
    requires i < |t| && t[i].Hole? && t[i].key !in mapping
    requires UsesOnly(t[..i], mapping.Keys)
    ensures Substitute(t, mapping) == KeyError(t[i].key)
  {
    if i > 0 {
      assert t[1..][..i - 1] == t[1..i];
      assert t[0] == t[..i][0];
      SubstituteFirstMissing(t[1..], mapping, i - 1);
    }
  }

  /** `w` occurs in `s` starting at index `k`. */
  predicate OccursAt(w: string, s: string, k: nat)
  {
    k + |w| <= |s| && s[k..k + |w|] == w
  }

  /** `w` occurs in `s` as a contiguous piece. */
  ghost predicate IsInfix(w: string, s: string)
  {
    exists k: nat :: OccursAt(w, s, k)
  }

  /** Substitution is concatenation: filling `a + b` fills `a` and `b` and joins the texts. */
  lemma {:induction false} SubstituteAppend(a: Template, b: Template, mapping: map<string, string>)
    requires UsesOnly(a, mapping.Keys) && UsesOnly(b, mapping.Keys)
    ensures UsesOnly(a + b, mapping.Keys)
    ensures Substitute(a + b, mapping).text == Substitute(a, mapping).text + Substitute(b, mapping).text
  {
    if a == [] {
      assert a + b == b;
    } else {
      assert (a + b)[1..] == a[1..] + b;
      assert UsesOnly(a[1..], mapping.Keys);
      SubstituteAppend(a[1..], b, mapping);
    }
  }

  /** The text of any run of segments appears, filled in, in the text of the whole template. */
  lemma SubstituteSlice(t: Template, mapping: map<string, string>, i: nat, j: nat)
    requires i <= j <= |t|
    requires UsesOnly(t, mapping.Keys)
    ensures UsesOnly(t[i..j], mapping.Keys)
    ensures IsInfix(Substitute(t[i..j], mapping).text, Substitute(t, mapping).text)
  {
    assert UsesOnly(t[..i], mapping.Keys) && UsesOnly(t[i..j], mapping.Keys) && UsesOnly(t[j..], mapping.Keys);
    assert t == t[..i] + t[i..j] + t[j..];
    SubstituteAppend(t[..i], t[i..j], mapping);
    SubstituteAppend(t[..i] + t[i..j], t[j..], mapping);
    var pre := Substitute(t[..i], mapping).text;
    var mid := Substitute(t[i..j], mapping).text;
    var whole := Substitute(t, mapping).text;
    assert OccursAt(mid, whole, |pre|);
  }

  /** A placeholder followed by literal text: the value and the text appear side by side. */
  lemma HoleThenLit(t: Template, mapping: map<string, string>, i: nat)
    requires i + 1 < |t| && t[i].Hole? && t[i + 1].Lit?
    requires UsesOnly(t, mapping.Keys)
    ensures IsInfix(mapping[t[i].key] + t[i + 1].text, Substitute(t, mapping).text)
  {
    SubstituteSlice(t, mapping, i, i + 2);
    var piece := t[i..i + 2];
    assert piece[1..][1..] == [];
    assert Substitute(piece[1..], mapping).text == t[i + 1].text + [];
    assert Substitute(piece, mapping).text == mapping[t[i].key] + t[i + 1].text;
  }

  /** Literal text, a placeholder and literal text: the three appear side by side. */
  lemma LitHoleLit(t: Template, mapping: map<string, string>, i: nat)
    requires i + 2 < |t| && t[i].Lit? && t[i + 1].Hole? && t[i + 2].Lit?
    requires UsesOnly(t, mapping.Keys)
    ensures IsInfix(t[i].text + mapping[t[i + 1].key] + t[i + 2].text, Substitute(t, mapping).text)
  {
    SubstituteSlice(t, mapping, i, i + 3);
    var piece := t[i..i + 3];
    assert piece[1..][1..][1..] == [];
    assert Substitute(piece[1..][1..], mapping).text == t[i + 2].text + [];
    assert Substitute(piece[1..], mapping).text == mapping[t[i + 1].key] + t[i + 2].text;
    assert Substitute(piece, mapping).text == t[i].text + (mapping[t[i + 1].key] + t[i + 2].text);
    assert t[i].text + (mapping[t[i + 1].key] + t[i + 2].text) == t[i].text + mapping[t[i + 1].key] + t[i + 2].text;
  }

  /** A piece of an infix is an infix. */
  lemma InfixOfInfix(u: string, w: string, s: string, k: nat)
    requires k + |u| <= |w| && w[k..k + |u|] == u
    requires IsInfix(w, s)
    ensures IsInfix(u, s)
  {
    var j: nat :| OccursAt(w, s, j);
    forall x | 0 <= x < |u| ensures s[j + k + x] == u[x] {
      assert s[j..j + |w|][k + x] == w[k + x];
    }
    assert s[j + k..j + k + |u|] == u;
    assert OccursAt(u, s, j + k);
  }

  /** A piece glued between two others is an infix of whatever the whole is an infix of. */
  lemma InfixInside(p: string, w: string, q: string, s: string)
    requires IsInfix(p + w + q, s)
    ensures IsInfix(w, s)
  {
    var piece := p + w + q;
    assert piece[|p|..|p| + |w|] == w;
    InfixOfInfix(w, piece, s, |p|);
  }

  /** A placeholder followed by literal text that starts with `w`: the value followed by `w` appears in the filled text. */
  lemma HoleThenPrefix(t: Template, mapping: map<string, string>, i: nat, w: string)
    requires i + 1 < |t| && t[i].Hole? && t[i + 1].Lit? && w <= t[i + 1].text
    requires UsesOnly(t, mapping.Keys)
    ensures IsInfix(mapping[t[i].key] + w, Substitute(t, mapping).text)
  {
    var v, text := mapping[t[i].key], t[i + 1].text;
    var rest := text[|w|..];
    assert text == w + rest;
    HoleThenLit(t, mapping, i);
    AppendAssoc(v, w, rest);
    assert [] + (v + w) + rest == v + text;
    InfixInside([], v + w, rest, Substitute(t, mapping).text);
  }

  /**
   * Literal text ending in `a`, a placeholder, and literal text starting
   * with `b`: `a`, the value and `b` appear side by side in the filled text.
   */
  lemma AroundHole(t: Template, mapping: map<string, string>, i: nat, a: string, b: string)
    requires i + 2 < |t| && t[i].Lit? && t[i + 1].Hole? && t[i + 2].Lit?
    requires |a| <= |t[i].text| && t[i].text[|t[i].text| - |a|..] == a && b <= t[i + 2].text
    requires UsesOnly(t, mapping.Keys)
    ensures IsInfix(a + mapping[t[i + 1].key] + b, Substitute(t, mapping).text)
  {
    var v, before, after := mapping[t[i + 1].key], t[i].text, t[i + 2].text;
    var p, q := before[..|before| - |a|], after[|b|..];
    assert before == p + a && after == b + q;
    LitHoleLit(t, mapping, i);
    Regroup(p, a, v, b, q);
    InfixInside(p, a + v + b, q, Substitute(t, mapping).text);
  }
}
