/**
 * `ProcessTemplate`: fills a subject or body pattern. The four reserved tokens
 * are replaced first, in a fixed order, then one token per dataset entry in
 * enumeration order; a token nobody supplies stays in the text verbatim.
 */
module Renderer {
  import opened Wrappers
  import opened Text
  import opened Calendar
  import opened Placeholders
  import opened Numbers
  import opened MailModels

  predicate IsReserved(name: string) {
    name == "RecipientName" || name == "Date" || name == "Department" || name == "Role"
  }

  lemma ReservedBraceFree(name: string)
    requires IsReserved(name)
    ensures BraceFree(name)
  {
  }

  /** `value?.ToString() ?? ""`: a null value prints as the empty string. */
  function ValueText(v: Option<DataValue>): string {
    match v
    case None => ""
    case Some(IntValue(i)) => IntToString(i)
    case Some(TextValue(s)) => s
  }

  /** The reserved substitutions, in the order they are applied. */
  function ReservedBindings(date: Date, recipient: MailRecipient): seq<Binding>
    requires ValidDate(date)
  {
    [ Binding("RecipientName", recipient.name),
      Binding("Date", FormatDate(date)),
      Binding("Department", recipient.department),
      Binding("Role", recipient.role) ]
  }

  /** One substitution per dataset entry, in enumeration order. */
  function DataBindings(data: DataSet): (bs: seq<Binding>)
    ensures |bs| == |data|
    ensures forall i :: 0 <= i < |data| ==> bs[i].key == data[i].key
    decreases |data|
  {
    if |data| == 0 then []
    else [Binding(data[0].key, ValueText(data[0].value))] + DataBindings(data[1..])
  }

  function ProcessTemplate(template: string, data: DataSet, date: Date, recipient: MailRecipient): string
    requires ValidDate(date)
  {
    ReplaceEach(template, ReservedBindings(date, recipient) + DataBindings(data))
  }

  // ---------------------------------------------------------------------------
  // Reference meaning: what each token of a pattern turns into
  // ---------------------------------------------------------------------------

  /** The text a `{name}` token stands for. */
  function Resolve(name: string, data: DataSet, date: Date, recipient: MailRecipient): string
    requires ValidDate(date)
  {
    if name == "RecipientName" then recipient.name
    else if name == "Date" then FormatDate(date)
    else if name == "Department" then recipient.department
    else if name == "Role" then recipient.role
    else
      match Find(data, name)
      case Some(e) => ValueText(e.value)
      case None => Placeholder(name)
  }

  function ExpandSegment(seg: Segment, data: DataSet, date: Date, recipient: MailRecipient): string
    requires ValidDate(date)
  {
    match seg
    case Lit(t) => t
    case Hole(n) => Resolve(n, data, date, recipient)
  }

  /** A pattern with every token turned into the text it stands for. */
  function Expand(segs: seq<Segment>, data: DataSet, date: Date, recipient: MailRecipient): string
    requires ValidDate(date)
    decreases |segs|
  {
    if |segs| == 0 then ""
    else ExpandSegment(segs[0], data, date, recipient) + Expand(segs[1..], data, date, recipient)
  }

  predicate RecipientBraceFree(r: MailRecipient) {
    BraceFree(r.name) && BraceFree(r.department) && BraceFree(r.role)
  }

  /** Dataset keys and the printed values contain no braces. */
  predicate DataBraceFree(data: DataSet) {
    forall i :: 0 <= i < |data| ==> BraceFree(data[i].key) && BraceFree(ValueText(data[i].value))
  }

  // ---------------------------------------------------------------------------
  // The renderer agrees with the reference meaning
  // ---------------------------------------------------------------------------

  lemma {:induction false} DataBindingsFirstValue(data: DataSet, key: string)
    ensures FirstValue(DataBindings(data), key)
         == match Find(data, key) case Some(e) => Some(ValueText(e.value)) case None => None
    decreases |data|
  {
    if |data| > 0 {
      DataBindingsFirstValue(data[1..], key);
    }
  }

  lemma {:induction false} DataBindingsBraceFree(data: DataSet)
    requires DataBraceFree(data)
    ensures BindingsBraceFree(DataBindings(data))
    decreases |data|
  {
    if |data| > 0 {
      assert DataBraceFree(data[1..]) by {
        assert forall i :: 0 <= i < |data[1..]| ==> data[1..][i] == data[i + 1];
      }
      DataBindingsBraceFree(data[1..]);
    }
  }

  lemma ReservedBindingsBraceFree(date: Date, recipient: MailRecipient)
    requires ValidDate(date) && RecipientBraceFree(recipient)
    ensures BindingsBraceFree(ReservedBindings(date, recipient))
  {
    ReservedBraceFree("RecipientName");
    ReservedBraceFree("Date");
    ReservedBraceFree("Department");
    ReservedBraceFree("Role");
  }

  lemma ReservedFirstValue(name: string, date: Date, recipient: MailRecipient)
    requires ValidDate(date)
    ensures FirstValue(ReservedBindings(date, recipient), name)
         == if IsReserved(name) then Some(Resolve(name, [], date, recipient)) else None
  {
    var r0 := ReservedBindings(date, recipient);
    var r1, r2, r3 := r0[1..], r0[2..], r0[3..];
    assert r1[1..] == r2 && r2[1..] == r3 && r3[1..] == [];
    assert FirstValue(r3, name) == if name == "Role" then Some(recipient.role) else None;
    assert FirstValue(r2, name) == if name == "Department" then Some(recipient.department) else FirstValue(r3, name);
    assert FirstValue(r1, name) == if name == "Date" then Some(FormatDate(date)) else FirstValue(r2, name);
  }

  /** The bindings a rendering applies resolve each token exactly as `Resolve` says. */
  lemma ResolveSegmentText(seg: Segment, data: DataSet, date: Date, recipient: MailRecipient)
    requires ValidDate(date)
    ensures SegmentText(ResolveSegment(seg, ReservedBindings(date, recipient) + DataBindings(data)))
         == ExpandSegment(seg, data, date, recipient)
  {
    if seg.Hole? {
      FirstValueAppend(ReservedBindings(date, recipient), DataBindings(data), seg.name);
      ReservedFirstValue(seg.name, date, recipient);
      DataBindingsFirstValue(data, seg.name);
    }
  }

  lemma {:induction false} ResolvedIsExpansion(segs: seq<Segment>, data: DataSet, date: Date, recipient: MailRecipient)
    requires ValidDate(date)
    ensures Flatten(ResolveAll(segs, ReservedBindings(date, recipient) + DataBindings(data)))
         == Expand(segs, data, date, recipient)
    decreases |segs|
  {
    var bs := ReservedBindings(date, recipient) + DataBindings(data);
    if |segs| > 0 {
      assert ResolveAll(segs, bs)[1..] == ResolveAll(segs[1..], bs);
      ResolvedIsExpansion(segs[1..], data, date, recipient);
      ResolveSegmentText(segs[0], data, date, recipient);
    }
  }

  /**
   * The central fact: rendering a well-formed pattern replaces each token by
   * the text it stands for and nothing else.
   */
  lemma RenderMatchesExpansion(segs: seq<Segment>, data: DataSet, date: Date, recipient: MailRecipient)
    requires WellFormed(segs) && ValidDate(date)
    requires RecipientBraceFree(recipient) && DataBraceFree(data)
    ensures ProcessTemplate(Flatten(segs), data, date, recipient) == Expand(segs, data, date, recipient)
  {
    var bs := ReservedBindings(date, recipient) + DataBindings(data);
    ReservedBindingsBraceFree(date, recipient);
    DataBindingsBraceFree(data);
    BindingsBraceFreeAppend(ReservedBindings(date, recipient), DataBindings(data));
    ReplaceEachResolves(segs, bs);
    ResolvedIsExpansion(segs, data, date, recipient);
  }

  // ---------------------------------------------------------------------------
  // Consequences
  // ---------------------------------------------------------------------------

  /**
   * A pattern containing none of the reserved tokens and no token of a dataset
   * key comes back unchanged: unknown `{X}` tokens survive verbatim.
   */
  lemma RenderPassesThrough(template: string, data: DataSet, date: Date, recipient: MailRecipient)
    requires ValidDate(date)
    requires forall name :: IsReserved(name) ==> !Contains(template, Placeholder(name))
    requires forall i :: 0 <= i < |data| ==> !Contains(template, Placeholder(data[i].key))
    ensures ProcessTemplate(template, data, date, recipient) == template
  {
    var bs := ReservedBindings(date, recipient) + DataBindings(data);
    forall i | 0 <= i < |bs|
      ensures !Contains(template, Placeholder(bs[i].key))
    {
      if i >= 4 {
        assert bs[i] == DataBindings(data)[i - 4];
      } else {
        assert IsReserved(bs[i].key);
      }
    }
    ReplaceEachAbsent(template, bs);
  }

  /** A token whose dataset value is null renders as the empty string, never as "null". */
  lemma NullValueRendersEmpty(key: string, data: DataSet, date: Date, recipient: MailRecipient)
    requires ValidDate(date) && BraceFree(key) && !IsReserved(key)
    requires RecipientBraceFree(recipient) && DataBraceFree(data)
    requires Find(data, key) == Some(DataEntry(key, None))
    ensures ProcessTemplate(Placeholder(key), data, date, recipient) == ""
  {
    assert Flatten([Hole(key)]) == Placeholder(key);
    RenderMatchesExpansion([Hole(key)], data, date, recipient);
  }

  /** The dataset with every entry named like a reserved token removed. */
  function WithoutReserved(data: DataSet): (r: DataSet)
    ensures forall i :: 0 <= i < |r| ==> r[i] in data && !IsReserved(r[i].key)
    decreases |data|
  {
    if |data| == 0 then []
    else if IsReserved(data[0].key) then WithoutReserved(data[1..])
    else [data[0]] + WithoutReserved(data[1..])
  }

  lemma {:induction false} FindWithoutReserved(data: DataSet, key: string)
    requires !IsReserved(key)
    ensures Find(WithoutReserved(data), key) == Find(data, key)
    decreases |data|
  {
    if |data| > 0 {
      FindWithoutReserved(data[1..], key);
    }
  }

  lemma {:induction false} ExpandWithoutReserved(segs: seq<Segment>, data: DataSet, date: Date, recipient: MailRecipient)
    requires ValidDate(date)
    ensures Expand(segs, WithoutReserved(data), date, recipient) == Expand(segs, data, date, recipient)
    decreases |segs|
  {
    if |segs| > 0 {
      ExpandWithoutReserved(segs[1..], data, date, recipient);
      if segs[0].Hole? && !IsReserved(segs[0].name) {
        FindWithoutReserved(data, segs[0].name);
      }
    }
  }

  /**
   * Reserved tokens are replaced before any dataset entry is looked at, so a
   * dataset key named `Date`, `Role`, ... changes nothing.
   */
  lemma ReservedNotShadowed(segs: seq<Segment>, data: DataSet, date: Date, recipient: MailRecipient)
    requires WellFormed(segs) && ValidDate(date)
    requires RecipientBraceFree(recipient) && DataBraceFree(data)
    ensures ProcessTemplate(Flatten(segs), data, date, recipient)
         == ProcessTemplate(Flatten(segs), WithoutReserved(data), date, recipient)
  {
    assert DataBraceFree(WithoutReserved(data));
    RenderMatchesExpansion(segs, data, date, recipient);
    RenderMatchesExpansion(segs, WithoutReserved(data), date, recipient);
    ExpandWithoutReserved(segs, data, date, recipient);
  }

  /** A token that is not reserved stands for its dataset value's text. */
  lemma ResolveDataKey(name: string, data: DataSet, date: Date, recipient: MailRecipient)
    requires ValidDate(date) && !IsReserved(name) && name in Keys(data)
    ensures Resolve(name, data, date, recipient) == ValueText(ValueOf(data, name))
  {
    FindFindsKey(data, name);
  }

  /** Expansion works piece by piece: a pattern split in two expands to the two expansions joined. */
  lemma {:induction false} ExpandAppend(a: seq<Segment>, b: seq<Segment>, data: DataSet, date: Date, recipient: MailRecipient)
    requires ValidDate(date)
    ensures Expand(a + b, data, date, recipient) == Expand(a, data, date, recipient) + Expand(b, data, date, recipient)
    decreases |a|
  {
    if |a| == 0 {
      assert a + b == b;
    } else {
      assert (a + b)[1..] == a[1..] + b;
      ExpandAppend(a[1..], b, data, date, recipient);
    }
  }

  /** A literal followed by a token shows up in the expansion as the literal followed by the token's text. */
  lemma ExpandShowsPair(segs: seq<Segment>, i: nat, data: DataSet, date: Date, recipient: MailRecipient)
    requires ValidDate(date) && i + 2 <= |segs| && segs[i].Lit? && segs[i + 1].Hole?
    ensures Contains(Expand(segs, data, date, recipient), segs[i].text + Resolve(segs[i + 1].name, data, date, recipient))
  {
    var pair := segs[i..i + 2];
    assert segs == segs[..i] + pair + segs[i + 2..];
    ExpandAppend(segs[..i] + pair, segs[i + 2..], data, date, recipient);
    ExpandAppend(segs[..i], pair, data, date, recipient);
    assert Expand(pair, data, date, recipient) == segs[i].text + Resolve(segs[i + 1].name, data, date, recipient) by {
      assert pair[0] == segs[i] && pair[1..] == [segs[i + 1]] && pair[1..][1..] == [];
      assert Expand(pair[1..], data, date, recipient) == Resolve(segs[i + 1].name, data, date, recipient) + "";
    }
    ContainsInfix(Expand(segs[..i], data, date, recipient), Expand(pair, data, date, recipient), Expand(segs[i + 2..], data, date, recipient));
  }

  /** Every token of the pattern is reserved or a dataset key. */
  predicate AllTokensSupplied(segs: seq<Segment>, data: DataSet) {
    forall i :: 0 <= i < |segs| && segs[i].Hole? ==> IsReserved(segs[i].name) || segs[i].name in Keys(data)
  }

  lemma {:induction false} ExpandBraceFree(segs: seq<Segment>, data: DataSet, date: Date, recipient: MailRecipient)
    requires WellFormed(segs) && ValidDate(date)
    requires RecipientBraceFree(recipient) && DataBraceFree(data)
    requires AllTokensSupplied(segs, data)
    ensures BraceFree(Expand(segs, data, date, recipient))
    decreases |segs|
  {
    if |segs| > 0 {
      assert WellFormed(segs[1..]) && AllTokensSupplied(segs[1..], data) by {
        assert forall i :: 0 <= i < |segs[1..]| ==> segs[1..][i] == segs[i + 1];
      }
      ExpandBraceFree(segs[1..], data, date, recipient);
      assert SegmentWellFormed(segs[0]);
      if segs[0].Hole? && !IsReserved(segs[0].name) {
        FindFindsKey(data, segs[0].name);
        var e := Find(data, segs[0].name).value;
        var j :| 0 <= j < |data| && data[j] == e;
      }
    }
  }

  /** When every token is supplied, the rendered text holds no `{...}` token at all. */
  lemma RenderedHasNoTokens(segs: seq<Segment>, data: DataSet, date: Date, recipient: MailRecipient)
    requires WellFormed(segs) && ValidDate(date)
    requires RecipientBraceFree(recipient) && DataBraceFree(data)
    requires AllTokensSupplied(segs, data)
    ensures BraceFree(ProcessTemplate(Flatten(segs), data, date, recipient))
  {
    RenderMatchesExpansion(segs, data, date, recipient);
    ExpandBraceFree(segs, data, date, recipient);
  }
}
