/**
 * The theory behind placeholder substitution. A template pattern is viewed as
 * a sequence of segments: literal text, and `{Name}` tokens. When literal text
 * and names are free of braces, one `String.Replace` of a token acts on the
 * segment view exactly by turning the matching holes into literal text; a fold
 * of replacements therefore resolves each hole to the FIRST binding of its name.
 */
module Placeholders {
  import opened Wrappers
  import opened Text

  datatype Segment = Lit(text: string) | Hole(name: string)

  /** One substitution step: every `{key}` becomes `value`. */
  datatype Binding = Binding(key: string, value: string)

  /** The token `{name}`, as `$"{{{name}}}"` builds it. */
  function Placeholder(name: string): (p: string)
    ensures |p| == |name| + 2 && p[0] == '{' && p[|p| - 1] == '}'
    ensures p[1..|p| - 1] == name
  {
    "{" + name + "}"
  }

  function SegmentText(seg: Segment): string {
    match seg
    case Lit(t) => t
    case Hole(n) => Placeholder(n)
  }

  /** The pattern string a segment sequence spells. */
  function Flatten(segs: seq<Segment>): string
    decreases |segs|
  {
    if |segs| == 0 then "" else SegmentText(segs[0]) + Flatten(segs[1..])
  }

  predicate SegmentWellFormed(seg: Segment) {
    match seg
    case Lit(t) => BraceFree(t)
    case Hole(n) => BraceFree(n)
  }

  /** No brace inside literal text or token names: the segments are unambiguous. */
  predicate WellFormed(segs: seq<Segment>) {
    forall i :: 0 <= i < |segs| ==> SegmentWellFormed(segs[i])
  }

  /** Segments are well formed when their literal texts are brace free and their names come from a brace-free list. */
  lemma WellFormedByParts(segs: seq<Segment>, names: seq<Plain>)
    requires forall i :: 0 <= i < |segs| && segs[i].Lit? ==> BraceFree(segs[i].text)
    requires forall i :: 0 <= i < |segs| && segs[i].Hole? ==> segs[i].name in names
    ensures WellFormed(segs)
  {
  }

  predicate BindingsBraceFree(bs: seq<Binding>) {
    forall i :: 0 <= i < |bs| ==> BraceFree(bs[i].key) && BraceFree(bs[i].value)
  }

  lemma BindingsBraceFreeAppend(a: seq<Binding>, b: seq<Binding>)
    requires BindingsBraceFree(a) && BindingsBraceFree(b)
    ensures BindingsBraceFree(a + b)
  {
    assert forall i :: |a| <= i < |a + b| ==> (a + b)[i] == b[i - |a|];
  }

  // ---------------------------------------------------------------------------
  // Text side: the fold of String.Replace calls
  // ---------------------------------------------------------------------------

  /** Applies `s = s.Replace("{key}", value)` for each binding in order. */
  function ReplaceEach(s: string, bs: seq<Binding>): string
    decreases |bs|
  {
    if |bs| == 0 then s
    else ReplaceEach(ReplaceAll(s, Placeholder(bs[0].key), bs[0].value), bs[1..])
  }

  /** Text in which none of the tokens occurs is left exactly as it was. */
  lemma {:induction false} ReplaceEachAbsent(s: string, bs: seq<Binding>)
    requires forall i :: 0 <= i < |bs| ==> !Contains(s, Placeholder(bs[i].key))
    ensures ReplaceEach(s, bs) == s
    decreases |bs|
  {
    if |bs| > 0 {
      ReplaceAbsent(s, Placeholder(bs[0].key), bs[0].value);
      ReplaceEachAbsent(s, bs[1..]);
    }
  }

  // ---------------------------------------------------------------------------
  // Segment side: filling holes
  // ---------------------------------------------------------------------------

  function FillSegment(seg: Segment, b: Binding): Segment {
    if seg == Hole(b.key) then Lit(b.value) else seg
  }

  /** Turns every hole named `b.key` into the literal `b.value`. */
  function Fill(segs: seq<Segment>, b: Binding): (r: seq<Segment>)
    ensures |r| == |segs|
    ensures WellFormed(segs) && BraceFree(b.value) ==> WellFormed(r)
  {
    seq(|segs|, i requires 0 <= i < |segs| => FillSegment(segs[i], b))
  }

  function FillEach(segs: seq<Segment>, bs: seq<Binding>): seq<Segment>
    decreases |bs|
  {
    if |bs| == 0 then segs else FillEach(Fill(segs, bs[0]), bs[1..])
  }

  /** The value of the first binding for `key`, if any. */
  function FirstValue(bs: seq<Binding>, key: string): Option<string>
    decreases |bs|
  {
    if |bs| == 0 then None
    else if bs[0].key == key then Some(bs[0].value)
    else FirstValue(bs[1..], key)
  }

  lemma {:induction false} FirstValueAppend(a: seq<Binding>, b: seq<Binding>, key: string)
    ensures FirstValue(a + b, key) == if FirstValue(a, key).Some? then FirstValue(a, key) else FirstValue(b, key)
    decreases |a|
  {
    if |a| == 0 {
      assert a + b == b;
    } else {
      assert (a + b)[1..] == a[1..] + b;
      FirstValueAppend(a[1..], b, key);
    }
  }

  /** A hole whose name is bound becomes the first bound value; other segments stay. */
  function ResolveSegment(seg: Segment, bs: seq<Binding>): Segment {
    match seg
    case Lit(_) => seg
    case Hole(n) =>
      match FirstValue(bs, n)
      case Some(v) => Lit(v)
      case None => seg
  }

  function ResolveAll(segs: seq<Segment>, bs: seq<Binding>): (r: seq<Segment>)
    ensures |r| == |segs|
  {
    seq(|segs|, i requires 0 <= i < |segs| => ResolveSegment(segs[i], bs))
  }

  // ---------------------------------------------------------------------------
  // The bridge
  // ---------------------------------------------------------------------------

  lemma FlattenCons(segs: seq<Segment>)
    requires |segs| > 0
    ensures Flatten(segs) == SegmentText(segs[0]) + Flatten(segs[1..])
  {
  }

  /** `{n}` followed by anything never starts with a different token `{k}`. */
  lemma OtherTokenNoMatch(n: string, k: string, u: string)
    requires BraceFree(n) && BraceFree(k) && n != k
    ensures !(Placeholder(k) <= Placeholder(n) + u)
  {
    var s, p := Placeholder(n) + u, Placeholder(k);
    if |s| < |p| {
    } else if |n| < |k| {
      assert s[|n| + 1] == '}';
      assert p[|n| + 1] == k[|n|] && k[|n|] in k;
      assert p[|n| + 1] != s[|n| + 1];
    } else if |n| > |k| {
      assert p[|k| + 1] == '}';
      assert s[|k| + 1] == n[|k|] && n[|k|] in n;
      assert p[|k| + 1] != s[|k| + 1];
    } else {
      var j :| 0 <= j < |n| && n[j] != k[j];
      assert s[j + 1] == n[j] && p[j + 1] == k[j];
    }
  }

  /** A token of another name is copied through and the scan resumes after it. */
  lemma ReplaceSkipsOtherToken(n: string, tail: string, b: Binding)
    requires BraceFree(n) && BraceFree(b.key) && n != b.key
    ensures ReplaceAll(Placeholder(n) + tail, Placeholder(b.key), b.value)
         == Placeholder(n) + ReplaceAll(tail, Placeholder(b.key), b.value)
  {
    var pat := Placeholder(b.key);
    var s := Placeholder(n) + tail;
    if |s| >= |pat| {
      OtherTokenNoMatch(n, b.key, tail);
      assert s[1..] == (n + "}") + tail;
      assert '{' !in n + "}";
      ReplaceSkipsPrefix(n + "}", tail, pat, b.value);
      assert s == "{" + ((n + "}") + tail);
    }
  }

  /** One `String.Replace` of a token fills exactly the holes of that name. */
  lemma {:induction false} ReplaceFillsHoles(segs: seq<Segment>, b: Binding)
    requires WellFormed(segs) && BraceFree(b.key)
    ensures ReplaceAll(Flatten(segs), Placeholder(b.key), b.value) == Flatten(Fill(segs, b))
    decreases |segs|
  {
    var pat := Placeholder(b.key);
    if |segs| == 0 {
      assert Fill(segs, b) == [];
    } else {
      var rest := segs[1..];
      var tail := Flatten(rest);
      assert WellFormed(rest) by {
        assert forall i :: 0 <= i < |rest| ==> rest[i] == segs[i + 1];
      }
      assert Fill(segs, b)[1..] == Fill(rest, b);
      FlattenCons(Fill(segs, b));
      ReplaceFillsHoles(rest, b);
      assert SegmentWellFormed(segs[0]);
      match segs[0]
      case Lit(t) =>
        ReplaceSkipsPrefix(t, tail, pat, b.value);
      case Hole(n) =>
        if n == b.key {
          ReplaceAtStart(tail, pat, b.value);
        } else {
          ReplaceSkipsOtherToken(n, tail, b);
        }
    }
  }

  /** The whole fold of replacements is the fold of fills, on well-formed patterns. */
  lemma {:induction false} ReplaceEachFillsHoles(segs: seq<Segment>, bs: seq<Binding>)
    requires WellFormed(segs) && BindingsBraceFree(bs)
    ensures ReplaceEach(Flatten(segs), bs) == Flatten(FillEach(segs, bs))
    decreases |bs|
  {
    if |bs| > 0 {
      ReplaceFillsHoles(segs, bs[0]);
      assert BindingsBraceFree(bs[1..]) by {
        assert forall i :: 0 <= i < |bs[1..]| ==> bs[1..][i] == bs[i + 1];
      }
      ReplaceEachFillsHoles(Fill(segs, bs[0]), bs[1..]);
    }
  }

  /** Filling hole by hole resolves every hole to the first binding of its name. */
  lemma {:induction false} FillEachResolves(segs: seq<Segment>, bs: seq<Binding>)
    ensures FillEach(segs, bs) == ResolveAll(segs, bs)
    decreases |bs|
  {
    if |bs| == 0 {
      assert ResolveAll(segs, bs) == segs;
    } else {
      FillEachResolves(Fill(segs, bs[0]), bs[1..]);
      forall i | 0 <= i < |segs|
        ensures ResolveSegment(Fill(segs, bs[0])[i], bs[1..]) == ResolveSegment(segs[i], bs)
      {
      }
    }
  }

  /** Text of a fully described rendering: the fold of replacements equals the resolved pattern. */
  lemma ReplaceEachResolves(segs: seq<Segment>, bs: seq<Binding>)
    requires WellFormed(segs) && BindingsBraceFree(bs)
    ensures ReplaceEach(Flatten(segs), bs) == Flatten(ResolveAll(segs, bs))
  {
    ReplaceEachFillsHoles(segs, bs);
    FillEachResolves(segs, bs);
  }
}
