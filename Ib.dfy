/**
 * The Interactive Brokers provider's dividend parsing: cleaning XML tag
 * names, collecting a dividend record's fields from an element and one level
 * of nested containers, choosing which elements of a calendar report are
 * dividend records, parsing the dividend tick string, and choosing between
 * the two sources.
 *
 * The XML document is an element tree value. The date formats tried by
 * `_parse_date_flexible` are the parameter `formats` (one partial parser per
 * format, in the order they are tried), and `float()` on text is the partial
 * function `parseFloat`.
 */
module IbDividends {
  import opened Common
  import opened Dates
  import opened Models

  // ------------------------------------------------------------------
  // Elements and tags
  // ------------------------------------------------------------------

  /** An XML element: its raw tag (possibly `{namespace}name`), attributes, text and children. */
  datatype Element = Element(tag: string, attrs: map<string, string>, text: Option<string>, children: seq<Element>)

  /** `root.iter()`: the element, then each child's subtree in document order. */
  function Preorder(e: Element): (r: seq<Element>)
    ensures |r| >= 1 && r[0] == e
    decreases e, 1
  {
    [e] + PreorderAll(e.children)
  }

  function PreorderAll(cs: seq<Element>): seq<Element>
    decreases cs, 0
  {
    if cs == [] then [] else Preorder(cs[0]) + PreorderAll(cs[1..])
  }

  /** The part of a tag after its last `}`, or the whole tag. */
  function LocalName(tag: string): (r: string)
    ensures !HasChar(r, '}')
    ensures |r| <= |tag| && r == tag[|tag| - |r|..]
  {
    match LastIndexOf(tag, '}')
    case None => tag
    case Some(i) => tag[i + 1..]
  }

  /** `_clean_tag`: the local name, lower-cased, one character at a time from the end. */
  function CleanTag(tag: string): (r: string)
    ensures |r| <= |tag|
  {
    if tag == [] || tag[|tag| - 1] == '}' then []
    else CleanTag(tag[..|tag| - 1]) + [LowerChar(tag[|tag| - 1])]
  }

  lemma LowerSnoc(s: string, c: char)
    ensures Lower(s + [c]) == Lower(s) + [LowerChar(c)]
  {
    assert |Lower(s + [c])| == |Lower(s) + [LowerChar(c)]|;
    forall i | 0 <= i <= |s| ensures Lower(s + [c])[i] == (Lower(s) + [LowerChar(c)])[i] {
      assert (s + [c])[i] == if i < |s| then s[i] else c;
    }
  }

  /** The local name grows with a last character that is not `}`. */
  lemma LocalNameSnoc(s: string, c: char)
    requires c != '}'
    ensures LocalName(s + [c]) == LocalName(s) + [c]
  {
    var t := s + [c];
    assert t[..|t| - 1] == s;
    match LastIndexOf(s, '}')
    case None =>
    case Some(i) =>
      assert t[i + 1..] == s[i + 1..] + [c];
  }

  /** The cleaned tag is the lower-cased local name. */
  lemma {:induction false} CleanTagMeaning(tag: string)
    ensures CleanTag(tag) == Lower(LocalName(tag))
  {
    if tag != [] {
      CleanTagMeaning(tag[..|tag| - 1]);
      CleanTagStep(tag[..|tag| - 1], tag[|tag| - 1]);
      assert tag == tag[..|tag| - 1] + [tag[|tag| - 1]];
    }
  }

  lemma CleanTagStep(s: string, c: char)
    requires CleanTag(s) == Lower(LocalName(s))
    ensures CleanTag(s + [c]) == Lower(LocalName(s + [c]))
  {
    var t := s + [c];
    assert t[..|s|] == s;
    if c == '}' {
      assert LocalName(t) == [];
    } else {
      LocalNameSnoc(s, c);
      LowerSnoc(LocalName(s), c);
    }
  }

  /** A cleaned tag holds no `}`. */
  lemma CleanTagNoBrace(tag: string)
    ensures !HasChar(CleanTag(tag), '}')
  {
    CleanTagMeaning(tag);
    var n := LocalName(tag);
    forall i | 0 <= i < |n| ensures Lower(n)[i] != '}' {
      assert n[i] != '}';
    }
  }

  /** Cleaning a clean tag changes nothing; a tag without `}` is only lower-cased. */
  lemma CleanTagIdempotent(tag: string)
    ensures CleanTag(CleanTag(tag)) == CleanTag(tag)
    ensures !HasChar(tag, '}') ==> CleanTag(tag) == Lower(tag)
  {
    var c := CleanTag(tag);
    CleanTagMeaning(tag);
    CleanTagMeaning(c);
    CleanTagNoBrace(tag);
    assert LocalName(c) == c;
    LowerIdempotent(LocalName(tag));
  }

  // ------------------------------------------------------------------
  // Field extraction
  // ------------------------------------------------------------------

  /** The fields of a dividend record, in the order the extraction tests them. */
  datatype DivField =
    | ExDateField | PayDateField | RecordDateField | DeclarationDateField
    | AmountField | KindField | FrequencyField | CurrencyField

  /** The cleaned tags that carry each field. */
  function TagSet(f: DivField): set<string>
  {
    match f
    case ExDateField => {"exdate", "ex_date", "eventdate"}
    case PayDateField => {"paydate", "pay_date", "paymentdate"}
    case RecordDateField => {"recorddate", "record_date"}
    case DeclarationDateField => {"declaredate", "declarationdate", "decl_date", "declaration_date", "decldate"}
    case AmountField => {"amount", "dividendamount", "div_amount"}
    case KindField => {"dividendtype", "divtype", "dividend_type", "type"}
    case FrequencyField => {"frequency", "freq"}
    case CurrencyField => {"currency", "curr"}
  }

  /** The fields in the order of the `elif` chain. */
  const FieldOrder: seq<DivField> :=
    [ExDateField, PayDateField, RecordDateField, DeclarationDateField,
     AmountField, KindField, FrequencyField, CurrencyField]

  /** The first of `fs` whose tag set holds the tag. */
  function FirstHolding(tag: string, fs: seq<DivField>): Option<DivField>
  {
    if fs == [] then None
    else if tag in TagSet(fs[0]) then Some(fs[0])
    else FirstHolding(tag, fs[1..])
  }

  /** The field of the first tag set, in the `elif` order, holding the tag. */
  function FieldFor(tag: string): Option<DivField>
  {
    FirstHolding(tag, FieldOrder)
  }

  /** No tag belongs to two of the fields in `fs`. */
  predicate Disjoint(fs: seq<DivField>)
  {
    forall i, j :: 0 <= i < j < |fs| ==> TagSet(fs[i]) !! TagSet(fs[j])
  }

  /** With disjoint tag sets, the first field holding a tag is the only one. */
  lemma {:induction false} FirstHoldingMeaning(tag: string, fs: seq<DivField>, f: DivField)
    requires Disjoint(fs)
    ensures FirstHolding(tag, fs) == Some(f) <==> f in fs && tag in TagSet(f)
  {
    if fs != [] {
      assert Disjoint(fs[1..]) by {
        forall i, j | 0 <= i < j < |fs[1..]| ensures TagSet(fs[1..][i]) !! TagSet(fs[1..][j]) {
          assert fs[1..][i] == fs[i + 1] && fs[1..][j] == fs[j + 1];
        }
      }
      FirstHoldingMeaning(tag, fs[1..], f);
      if tag in TagSet(fs[0]) {
        forall j | 1 <= j < |fs| ensures tag !in TagSet(fs[j]) {
          assert TagSet(fs[0]) !! TagSet(fs[j]);
        }
      }
    }
  }

  /** Each field's tag set is disjoint from those of the fields after it. */
  lemma FieldOrderDisjoint()
    ensures Disjoint(FieldOrder)
  {
    DisjointFromLater(0);
    DisjointFromLater(1);
    DisjointFromLater(2);
    DisjointFromLater(3);
    DisjointFromLater(4);
    DisjointFromLater(5);
    DisjointFromLater(6);
  }

  lemma DisjointFromLater(i: nat)
    requires i < 7
    ensures forall j :: i < j < 8 ==> TagSet(FieldOrder[i]) !! TagSet(FieldOrder[j])
  {
    forall j | i < j < 8 ensures TagSet(FieldOrder[i]) !! TagSet(FieldOrder[j]) {
      DisjointPair(FieldOrder[i], FieldOrder[j]);
    }
  }

  lemma DisjointPair(f: DivField, g: DivField)
    requires f != g
    ensures TagSet(f) !! TagSet(g)
  {
  }

  /**
   * The tag sets are disjoint, so the `elif` chain gives a tag to the one
   * field whose set holds it: a later branch never takes a tag whose own
   * field is already filled.
   */
  lemma FieldForMeaning(tag: string, f: DivField)
    ensures FieldFor(tag) == Some(f) <==> tag in TagSet(f)
  {
    FieldOrderDisjoint();
    FirstHoldingMeaning(tag, FieldOrder, f);
    assert f in FieldOrder by {
      match f
      case ExDateField => assert FieldOrder[0] == f;
      case PayDateField => assert FieldOrder[1] == f;
      case RecordDateField => assert FieldOrder[2] == f;
      case DeclarationDateField => assert FieldOrder[3] == f;
      case AmountField => assert FieldOrder[4] == f;
      case KindField => assert FieldOrder[5] == f;
      case FrequencyField => assert FieldOrder[6] == f;
      case CurrencyField => assert FieldOrder[7] == f;
    }
  }

  /** The children whose cleaned tag marks a nested container. */
  predicate IsContainer(c: Element)
  {
    CleanTag(c.tag) in {"detail", "eventbody", "dividenddetail"}
  }

  /** A child as the extraction sees it: its stripped text and the field its cleaned tag names. */
  datatype Item = Item(text: string, field: Option<DivField>)

  /** One child read: `(child.text or "").strip()` and the field of `_clean_tag(child.tag)`. */
  function ReadOf(c: Element): Item
  {
    Item(Strip(if c.text.Some? then c.text.value else ""), FieldFor(CleanTag(c.tag)))
  }

  /** A child's read names field `f` exactly when its cleaned tag is in `f`'s tag set. */
  lemma ReadOfMeaning(c: Element, f: DivField)
    ensures ReadOf(c).field == Some(f) <==> CleanTag(c.tag) in TagSet(f)
    ensures ReadOf(c).text == Strip(if c.text.Some? then c.text.value else "")
  {
    FieldForMeaning(CleanTag(c.tag), f);
  }

  /** The children of several containers, container after container. */
  function Flat(cs: seq<Element>): seq<Element>
  {
    if cs == [] then [] else Flat(cs[..|cs| - 1]) + cs[|cs| - 1].children
  }

  lemma {:induction false} FlatConcat(a: seq<Element>, b: seq<Element>)
    ensures Flat(a + b) == Flat(a) + Flat(b)
    decreases |b|
  {
    if b == [] {
      assert a + b == a;
    } else {
      FlatConcat(a, b[..|b| - 1]);
      assert (a + b)[..|a + b| - 1] == a + b[..|b| - 1];
    }
  }

  /** The children that are containers, in document order. */
  function ContainerKids(cs: seq<Element>): seq<Element>
  {
    if cs == [] then []
    else ContainerKids(cs[..|cs| - 1]) + (if IsContainer(cs[|cs| - 1]) then [cs[|cs| - 1]] else [])
  }

  /** The container children are exactly the children that are containers. */
  lemma {:induction false} ContainerKidsMeaning(cs: seq<Element>)
    ensures forall c :: c in ContainerKids(cs) <==> c in cs && IsContainer(c)
  {
    if cs != [] {
      ContainerKidsMeaning(cs[..|cs| - 1]);
      assert cs == cs[..|cs| - 1] + [cs[|cs| - 1]];
    }
  }

  /** The containers searched: the element itself, then its container children. */
  function Containers(e: Element): (r: seq<Element>)
    ensures |r| >= 1 && r[0] == e
  {
    [e] + ContainerKids(e.children)
  }

  /** Every child the extraction visits, in visiting order. */
  function Visited(e: Element): seq<Element>
  {
    Flat(Containers(e))
  }

  /** One child's step: a non-empty text fills the field it names unless that field is filled. */
  function Absorb(result: map<DivField, string>, it: Item): map<DivField, string>
  {
    if it.text == "" then result
    else match it.field
      case None => result
      case Some(f) => if f in result then result else result[f := it.text]
  }

  /** The fields collected from the children visited, read in order. */
  function Fields(kids: seq<Element>): map<DivField, string>
  {
    if kids == [] then map[] else Absorb(Fields(kids[..|kids| - 1]), ReadOf(kids[|kids| - 1]))
  }

  lemma FieldsSnoc(kids: seq<Element>, c: Element)
    ensures Fields(kids + [c]) == Absorb(Fields(kids), ReadOf(c))
  {
    assert (kids + [c])[..|kids|] == kids;
  }

  lemma FlatTake(cs: seq<Element>, j: nat)
    requires j < |cs|
    ensures Flat(cs[..j + 1]) == Flat(cs[..j]) + cs[j].children
  {
    TakeShorter(cs, j);
  }

  /** The whole of `cs` as the prefix of its own length, as each loop ends. */
  lemma WholePrefix(cs: seq<Element>)
    ensures Flat(cs[..|cs|]) == Flat(cs)
    ensures ContainerKids(cs[..|cs|]) == ContainerKids(cs)
  {
    TakeAll(cs);
  }

  /** One more child looked at: a container child joins the containers. */
  lemma GatherStep(e: Element, k: nat)
    requires k < |e.children|
    ensures IsContainer(e.children[k]) ==>
              [e] + ContainerKids(e.children[..k + 1]) == [e] + ContainerKids(e.children[..k]) + [e.children[k]]
    ensures !IsContainer(e.children[k]) ==>
              [e] + ContainerKids(e.children[..k + 1]) == [e] + ContainerKids(e.children[..k])
  {
    TakeShorter(e.children, k);
  }

  /** The first loop of `_extract_dividend_fields`: the element, then its container children. */
  method GatherContainers(e: Element) returns (containers: seq<Element>)
    ensures containers == Containers(e)
  {
    containers := [e];
    var k := 0;
    while k < |e.children|
      invariant 0 <= k <= |e.children|
      invariant containers == [e] + ContainerKids(e.children[..k])
    {
      GatherStep(e, k);
      if IsContainer(e.children[k]) {
        containers := containers + [e.children[k]];
      }
      k := k + 1;
    }
    WholePrefix(e.children);
  }

  /** `_extract_dividend_fields`: gather the containers, then read their children. */
  method ExtractDividendFields(e: Element) returns (result: map<DivField, string>)
    ensures result == Fields(Visited(e))
  {
    var containers := GatherContainers(e);
    result := ReadContainers(containers);
  }

  /** The body of the inner loop: one child's stripped text fills its field if still unfilled. */
  method ReadChild(fields: map<DivField, string>, text: string, field: Option<DivField>) returns (r: map<DivField, string>)
    ensures text == "" || field.None? ==> r == fields
    ensures text != "" && field.Some? ==>
              r == if field.value in fields then fields else fields[field.value := text]
  {
    r := fields;
    if text == "" {
      return;
    }
    match field {
      case None =>
      case Some(f) =>
        if f !in fields {
          r := fields[f := text];
        }
    }
  }

  /** The outer loop of `_extract_dividend_fields`, over the containers. */
  method ReadContainers(containers: seq<Element>) returns (result: map<DivField, string>)
    ensures result == Fields(Flat(containers))
  {
    result := map[];
    var j := 0;
    while j < |containers|
      invariant 0 <= j <= |containers|
      invariant result == Fields(Flat(containers[..j]))
    {
      result := ReadChildren(Flat(containers[..j]), result, containers[j].children);
      FlatTake(containers, j);
      j := j + 1;
    }
    WholePrefix(containers);
  }

  /** One more child read: the fields of the longer prefix absorb that child. */
  lemma ReadStep(done: seq<Element>, kids: seq<Element>, i: nat)
    requires i < |kids|
    ensures Fields(done + kids[..i + 1]) == Absorb(Fields(done + kids[..i]), ReadOf(kids[i]))
  {
    assert done + kids[..i + 1] == (done + kids[..i]) + [kids[i]];
    FieldsSnoc(done + kids[..i], kids[i]);
  }

  /** The inner loop of `_extract_dividend_fields`, over one container's children. */
  method ReadChildren(ghost done: seq<Element>, fields: map<DivField, string>, kids: seq<Element>)
    returns (result: map<DivField, string>)
    requires fields == Fields(done)
    ensures result == Fields(done + kids)
  {
    result := fields;
    var i := 0;
    assert done + kids[..0] == done;
    while i < |kids|
      invariant 0 <= i <= |kids|
      invariant result == Fields(done + kids[..i])
    {
      ReadStep(done, kids, i);
      var text := Strip(if kids[i].text.Some? then kids[i].text.value else "");
      var field := FieldFor(CleanTag(kids[i].tag));
      result := ReadChild(result, text, field);
      i := i + 1;
    }
    TakeAll(kids);
  }

  /** The stripped text of the first child with a non-empty stripped text and a tag of `f`'s set. */
  function FirstMatch(kids: seq<Element>, f: DivField): Option<string>
  {
    if kids == [] then None
    else if ReadOf(kids[0]).text != "" && CleanTag(kids[0].tag) in TagSet(f) then Some(ReadOf(kids[0]).text)
    else FirstMatch(kids[1..], f)
  }

  /** Appending a child changes a field only if no earlier child matched it. */
  lemma {:induction false} FirstMatchSnoc(kids: seq<Element>, c: Element, f: DivField)
    ensures FirstMatch(kids + [c], f) ==
              if FirstMatch(kids, f).Some? then FirstMatch(kids, f)
              else if ReadOf(c).text != "" && CleanTag(c.tag) in TagSet(f) then Some(ReadOf(c).text)
              else None
  {
    if kids != [] {
      assert (kids + [c])[1..] == kids[1..] + [c];
      FirstMatchSnoc(kids[1..], c, f);
    }
  }

  /** One child's step fills field `f` exactly when `f` is unfilled and the child matches it. */
  lemma AbsorbField(result: map<DivField, string>, c: Element, f: DivField)
    ensures f in result ==> f in Absorb(result, ReadOf(c)) && Absorb(result, ReadOf(c))[f] == result[f]
    ensures f !in result ==>
              (f in Absorb(result, ReadOf(c)) <==> ReadOf(c).text != "" && CleanTag(c.tag) in TagSet(f))
    ensures f !in result && f in Absorb(result, ReadOf(c)) ==> Absorb(result, ReadOf(c))[f] == ReadOf(c).text
  {
    ReadOfMeaning(c, f);
  }

  /**
   * First match wins: each field holds the stripped text of the first
   * visited child with a non-empty text and a tag of that field's set, and
   * is absent when there is none; later matches never overwrite it.
   */
  lemma {:induction false} FieldsFirstMatch(kids: seq<Element>, f: DivField)
    ensures f in Fields(kids) <==> FirstMatch(kids, f).Some?
    ensures f in Fields(kids) ==> Fields(kids)[f] == FirstMatch(kids, f).value
  {
    if kids != [] {
      var front := kids[..|kids| - 1];
      var c := kids[|kids| - 1];
      assert kids == front + [c];
      FieldsFirstMatch(front, f);
      FieldsSnoc(front, c);
      FirstMatchSnoc(front, c, f);
      AbsorbField(Fields(front), c, f);
    }
  }

  /** An element with the grandchildren's own children removed. */
  function Prune(e: Element): Element
  {
    e.(children := PruneKids(e.children))
  }

  function PruneKids(cs: seq<Element>): (r: seq<Element>)
    ensures |r| == |cs|
    ensures forall i :: 0 <= i < |cs| ==> r[i] == cs[i].(children := Leaves(cs[i].children))
  {
    seq(|cs|, i requires 0 <= i < |cs| => cs[i].(children := Leaves(cs[i].children)))
  }

  function Leaves(cs: seq<Element>): (r: seq<Element>)
    ensures |r| == |cs|
    ensures forall i :: 0 <= i < |cs| ==> r[i] == cs[i].(children := [])
  {
    seq(|cs|, i requires 0 <= i < |cs| => cs[i].(children := []))
  }

  /** Two runs of children that agree, position by position, on tag and text. */
  predicate Alike(cs: seq<Element>, ds: seq<Element>)
  {
    |ds| == |cs| && forall i :: 0 <= i < |cs| ==> ds[i].tag == cs[i].tag && ds[i].text == cs[i].text
  }

  /** Children alike in tag and text are read alike, so they give the same fields. */
  lemma {:induction false} FieldsAlike(cs: seq<Element>, ds: seq<Element>)
    requires Alike(cs, ds)
    ensures Fields(ds) == Fields(cs)
  {
    if cs != [] {
      var n := |cs| - 1;
      assert Alike(cs[..n], ds[..n]);
      FieldsAlike(cs[..n], ds[..n]);
      assert ReadOf(ds[n]) == ReadOf(cs[n]);
    }
  }

  lemma AlikeConcat(a: seq<Element>, b: seq<Element>, c: seq<Element>, d: seq<Element>)
    requires Alike(a, c) && Alike(b, d)
    ensures Alike(a + b, c + d)
  {
    forall i | 0 <= i < |a + b| ensures (c + d)[i].tag == (a + b)[i].tag && (c + d)[i].text == (a + b)[i].text {
      if i < |a| {
        assert (a + b)[i] == a[i] && (c + d)[i] == c[i];
      } else {
        assert (a + b)[i] == b[i - |a|] && (c + d)[i] == d[i - |a|];
      }
    }
  }

  /** Children that agree on tag and whose own children are alike give alike container children. */
  lemma {:induction false} SameContainerItems(cs: seq<Element>, ds: seq<Element>)
    requires |ds| == |cs|
    requires forall i :: 0 <= i < |cs| ==> ds[i].tag == cs[i].tag && Alike(cs[i].children, ds[i].children)
    ensures Alike(Flat(ContainerKids(cs)), Flat(ContainerKids(ds)))
  {
    if cs != [] {
      var n := |cs| - 1;
      SameContainerItems(cs[..n], ds[..n]);
      var a, b := ContainerKids(cs[..n]), ContainerKids(ds[..n]);
      assert IsContainer(cs[n]) == IsContainer(ds[n]);
      if IsContainer(cs[n]) {
        assert ContainerKids(cs) == a + [cs[n]];
        assert ContainerKids(ds) == b + [ds[n]];
        assert (a + [cs[n]])[..|a|] == a;
        assert (b + [ds[n]])[..|b|] == b;
        AlikeConcat(Flat(a), cs[n].children, Flat(b), ds[n].children);
      } else {
        assert ContainerKids(cs) == a;
        assert ContainerKids(ds) == b;
      }
    }
  }

  /** Pruning keeps every child's tag and text, and its children's tags and texts. */
  lemma PruneKidsAlike(cs: seq<Element>)
    ensures Alike(cs, PruneKids(cs))
    ensures forall i :: 0 <= i < |cs| ==>
              PruneKids(cs)[i].tag == cs[i].tag && Alike(cs[i].children, PruneKids(cs)[i].children)
  {
    forall i | 0 <= i < |cs|
      ensures PruneKids(cs)[i].tag == cs[i].tag && Alike(cs[i].children, PruneKids(cs)[i].children)
    {
      assert PruneKids(cs)[i].children == Leaves(cs[i].children);
    }
  }

  /** The pruned element's visited children are alike the element's, position by position. */
  lemma VisitedAlike(e: Element)
    ensures Alike(Visited(e), Visited(Prune(e)))
  {
    var p := Prune(e);
    FlatConcat([p], ContainerKids(p.children));
    FlatConcat([e], ContainerKids(e.children));
    assert Flat([p]) == p.children;
    assert Flat([e]) == e.children;
    PruneKidsAlike(e.children);
    SameContainerItems(e.children, p.children);
    AlikeConcat(e.children, Flat(ContainerKids(e.children)), p.children, Flat(ContainerKids(p.children)));
  }

  /**
   * Only one level of nested containers is searched: descendants below a
   * container's children never affect the fields.
   */
  lemma DeeperIgnored(e: Element)
    ensures Alike(Visited(e), Visited(Prune(e)))
    ensures Fields(Visited(Prune(e))) == Fields(Visited(e))
  {
    VisitedAlike(e);
    FieldsAlike(Visited(e), Visited(Prune(e)));
  }

  // ------------------------------------------------------------------
  // Values of fields
  // ------------------------------------------------------------------

  /** `_parse_date_flexible`: nothing for an absent or empty text, else the first format that parses the stripped text. */
  function ParseDateFlexible(text: Option<string>, formats: seq<string -> Option<Date>>): Option<Date>
  {
    if text.None? || text.value == "" then None else FirstParse(Strip(text.value), formats)
  }

  function FirstParse(s: string, formats: seq<string -> Option<Date>>): Option<Date>
  {
    if formats == [] then None
    else if formats[0](s).Some? then formats[0](s)
    else FirstParse(s, formats[1..])
  }

  /** The formats are tried in order: the date comes from the first that parses, none when none does. */
  lemma {:induction false} FirstParseMeaning(s: string, formats: seq<string -> Option<Date>>)
    ensures FirstParse(s, formats).Some? <==> exists k :: 0 <= k < |formats| && formats[k](s).Some?
    ensures FirstParse(s, formats).Some? ==>
              exists k :: 0 <= k < |formats| && FirstParse(s, formats) == formats[k](s)
                          && forall j :: 0 <= j < k ==> formats[j](s).None?
  {
    if formats != [] && formats[0](s).None? {
      FirstParseMeaning(s, formats[1..]);
      if FirstParse(s, formats).Some? {
        var k :| 0 <= k < |formats[1..]| && FirstParse(s, formats[1..]) == formats[1..][k](s)
                 && forall j :: 0 <= j < k ==> formats[1..][j](s).None?;
        assert FirstParse(s, formats) == formats[k + 1](s);
        assert forall j :: 0 <= j < k + 1 ==> formats[j](s).None? by {
          forall j | 0 <= j < k + 1 ensures formats[j](s).None? {
            if j > 0 { assert formats[j] == formats[1..][j - 1]; }
          }
        }
      }
      if exists k :: 0 <= k < |formats| && formats[k](s).Some? {
        var k :| 0 <= k < |formats| && formats[k](s).Some?;
        assert k > 0 && formats[1..][k - 1] == formats[k];
      }
    }
  }

  /** `_FREQ_MAP`: payments per year for the frequency words. */
  function FreqMap(text: string): (r: Option<int>)
    ensures r.Some? ==> r.value in {12, 4, 2, 1}
    ensures r.Some? <==> text in {"monthly", "quarterly", "semi-annual", "semi-annually", "semiannual", "annual", "annually"}
  {
    if text == "monthly" then Some(12)
    else if text == "quarterly" then Some(4)
    else if text in {"semi-annual", "semi-annually", "semiannual"} then Some(2)
    else if text in {"annual", "annually"} then Some(1)
    else None
  }

  /** `sub in s`. */
  predicate Contains(s: string, sub: string)
  {
    StartsWith(s, sub) || (s != [] && Contains(s[1..], sub))
  }

  /** `fields.get(f)`. */
  function FieldOpt(fields: map<DivField, string>, f: DivField): Option<string>
  {
    if f in fields then Some(fields[f]) else None
  }

  /** A field's text, or the empty text. */
  function FieldText(fields: map<DivField, string>, f: DivField): string
  {
    if f in fields then fields[f] else ""
  }

  /** `"special"` when the lower-cased raw type mentions it, `"regular"` otherwise. */
  function DividendKind(fields: map<DivField, string>): (r: string)
    ensures r == "special" <==> Contains(Lower(FieldText(fields, KindField)), "special")
    ensures r == "special" || r == "regular"
  {
    if Contains(Lower(FieldText(fields, KindField)), "special") then "special" else "regular"
  }

  /**
   * One record's event: skipped when the ex-date does not parse or the
   * amount is absent or not a number; the currency defaults to USD and an
   * unknown frequency word gives none.
   */
  function EventOf(symbol: string, fields: map<DivField, string>, formats: seq<string -> Option<Date>>,
                   parseFloat: string -> Option<real>): (r: Option<DividendEvent>)
    ensures r.Some? <==>
              ParseDateFlexible(FieldOpt(fields, ExDateField), formats).Some?
              && AmountField in fields && parseFloat(fields[AmountField]).Some?
    ensures r.Some? ==>
              r.value.symbol == Upper(symbol)
              && r.value.amount == parseFloat(fields[AmountField]).value
              && r.value.currency == (if CurrencyField in fields then fields[CurrencyField] else "USD")
              && r.value.frequency == FreqMap(Lower(FieldText(fields, FrequencyField)))
              && (r.value.dividendType == "special" <==> Contains(Lower(FieldText(fields, KindField)), "special"))
    ensures r.Some? ==>
              r.value.exDate == ParseDateFlexible(FieldOpt(fields, ExDateField), formats).value
              && r.value.recordDate == ParseDateFlexible(FieldOpt(fields, RecordDateField), formats)
              && r.value.payDate == ParseDateFlexible(FieldOpt(fields, PayDateField), formats)
              && r.value.declarationDate == ParseDateFlexible(FieldOpt(fields, DeclarationDateField), formats)
  {
    var opt := (f: DivField) => FieldOpt(fields, f);
    var ex := ParseDateFlexible(opt(ExDateField), formats);
    if ex.None? || AmountField !in fields then None
    else match parseFloat(fields[AmountField])
      case None => None
      case Some(amount) =>
        Some(DividendEvent(
          Upper(symbol), ex.value, amount,
          ParseDateFlexible(opt(RecordDateField), formats),
          ParseDateFlexible(opt(PayDateField), formats),
          ParseDateFlexible(opt(DeclarationDateField), formats),
          DividendKind(fields),
          FreqMap(Lower(FieldText(fields, FrequencyField))),
          if CurrencyField in fields then fields[CurrencyField] else "USD"))
  }

  // ------------------------------------------------------------------
  // The calendar report
  // ------------------------------------------------------------------

  /** The elements that stand for one dividend: `cashdividend`, `dividend`, or an `event` of type dividend. */
  predicate IsRecord(e: Element)
  {
    var tag := CleanTag(e.tag);
    tag in {"cashdividend", "dividend"}
    || (tag == "event" && Lower(if "type" in e.attrs then e.attrs["type"] else "") == "dividend")
  }

  /** The events of the records among `elems`, in order, skipping records without an event. */
  function ReportEvents(symbol: string, elems: seq<Element>, formats: seq<string -> Option<Date>>,
                        parseFloat: string -> Option<real>): seq<DividendEvent>
  {
    if elems == [] then []
    else
      var front := ReportEvents(symbol, elems[..|elems| - 1], formats, parseFloat);
      var e := elems[|elems| - 1];
      if !IsRecord(e) then front
      else match EventOf(symbol, Fields(Visited(e)), formats, parseFloat)
        case None => front
        case Some(ev) => front + [ev]
  }

  /** `_dividends_from_calendar_report`: no report (or one that does not parse) gives none. */
  method DividendsFromReport(symbol: string, report: Option<Element>, formats: seq<string -> Option<Date>>,
                             parseFloat: string -> Option<real>) returns (events: seq<DividendEvent>)
    ensures report.None? ==> events == []
    ensures report.Some? ==> events == ReportEvents(symbol, Preorder(report.value), formats, parseFloat)
  {
    events := [];
    if report.None? {
      return;
    }
    var elems := Preorder(report.value);
    var k := 0;
    while k < |elems|
      invariant 0 <= k <= |elems|
      invariant events == ReportEvents(symbol, elems[..k], formats, parseFloat)
    {
      assert elems[..k + 1][..k] == elems[..k];
      var e := elems[k];
      if IsRecord(e) {
        var fields := ExtractDividendFields(e);
        var ev := EventOf(symbol, fields, formats, parseFloat);
        if ev.Some? {
          events := events + [ev.value];
        }
      }
      k := k + 1;
    }
    assert elems[..k] == elems;
  }

  /**
   * Every event of the report comes from a record element of the tree, and
   * every record element whose fields make an event contributes it.
   */
  lemma {:induction false} ReportEventsMeaning(symbol: string, elems: seq<Element>, formats: seq<string -> Option<Date>>,
                                               parseFloat: string -> Option<real>)
    ensures forall ev :: ev in ReportEvents(symbol, elems, formats, parseFloat) ==>
              exists e :: e in elems && IsRecord(e) && EventOf(symbol, Fields(Visited(e)), formats, parseFloat) == Some(ev)
    ensures forall e :: e in elems && IsRecord(e) && EventOf(symbol, Fields(Visited(e)), formats, parseFloat).Some? ==>
              EventOf(symbol, Fields(Visited(e)), formats, parseFloat).value in ReportEvents(symbol, elems, formats, parseFloat)
  {
    if elems != [] {
      var front := elems[..|elems| - 1];
      ReportEventsMeaning(symbol, front, formats, parseFloat);
      assert elems == front + [elems[|elems| - 1]];
      assert forall e :: e in front ==> e in elems;
    }
  }

  // ------------------------------------------------------------------
  // The dividend tick
  // ------------------------------------------------------------------

  /**
   * `_dividends_from_tick`: the string `past12,next12,nextExDate,nextAmount`
   * gives one regular USD event from its third and fourth parts; an absent
   * or empty string, fewer than four parts, or a bad date or amount gives
   * none.
   */
  function TickEvents(symbol: string, tick: Option<string>, formats: seq<string -> Option<Date>>,
                      parseFloat: string -> Option<real>): (r: seq<DividendEvent>)
    ensures |r| <= 1
    ensures r != [] ==> r[0].dividendType == "regular" && r[0].currency == "USD" && r[0].symbol == Upper(symbol)
  {
    if tick.None? || tick.value == "" then [] else PartsEvents(symbol, TickParts(tick.value), formats, parseFloat)
  }

  /** The event of a tick's stripped parts: from the third and fourth, when there are four and both parse. */
  function PartsEvents(symbol: string, parts: seq<string>, formats: seq<string -> Option<Date>>,
                       parseFloat: string -> Option<real>): seq<DividendEvent>
  {
    if |parts| < 4 then []
    else match ParseDateFlexible(Some(parts[2]), formats)
      case None => []
      case Some(d) =>
        match parseFloat(parts[3])
        case None => []
        case Some(amount) => [DividendEvent(Upper(symbol), d, amount)]
  }

  /** The comma-separated parts of a tick string, each stripped. */
  function TickParts(t: string): seq<string>
  {
    StripEach(Split(t, ','))
  }

  /** Four comma-free, stripped parts joined with commas are the parts of the tick they make. */
  lemma TickPartsOfJoin(xs: seq<string>)
    requires |xs| == 4 && forall i :: 0 <= i < 4 ==> !HasChar(xs[i], ',') && NoSpaceAtEnds(xs[i])
    ensures Join(xs, ',') != "" && TickParts(Join(xs, ',')) == xs
  {
    var t := Join(xs, ',');
    SplitJoin(xs, ',');
    assert Split("", ',') == [""];
    StripEachStripped(xs);
  }

  /** A non-empty tick gives the event of its stripped parts. */
  lemma TickEventsOfParts(symbol: string, t: string, formats: seq<string -> Option<Date>>,
                          parseFloat: string -> Option<real>)
    requires t != ""
    ensures TickEvents(symbol, Some(t), formats, parseFloat) == PartsEvents(symbol, TickParts(t), formats, parseFloat)
  {
  }

  /**
   * A tick string written from four comma-free, stripped parts reads back as
   * the event of its date and amount parts.
   */
  lemma TickRoundTrip(symbol: string, xs: seq<string>, formats: seq<string -> Option<Date>>,
                      parseFloat: string -> Option<real>)
    requires |xs| == 4 && forall i :: 0 <= i < 4 ==> !HasChar(xs[i], ',') && NoSpaceAtEnds(xs[i])
    requires xs[2] != "" && FirstParse(xs[2], formats).Some? && parseFloat(xs[3]).Some?
    ensures TickEvents(symbol, Some(Join(xs, ',')), formats, parseFloat)
            == [DividendEvent(Upper(symbol), FirstParse(xs[2], formats).value, parseFloat(xs[3]).value)]
  {
    TickPartsOfJoin(xs);
    TickEventsOfParts(symbol, Join(xs, ','), formats, parseFloat);
    PartsEventsOf(symbol, xs, formats, parseFloat);
  }

  /** Four stripped parts whose third and fourth parse give their event. */
  lemma PartsEventsOf(symbol: string, parts: seq<string>, formats: seq<string -> Option<Date>>,
                      parseFloat: string -> Option<real>)
    requires |parts| == 4 && parts[2] != "" && NoSpaceAtEnds(parts[2])
    requires FirstParse(parts[2], formats).Some? && parseFloat(parts[3]).Some?
    ensures PartsEvents(symbol, parts, formats, parseFloat)
            == [DividendEvent(Upper(symbol), FirstParse(parts[2], formats).value, parseFloat(parts[3]).value)]
  {
    StripNoSpaceAtEnds(parts[2]);
  }

  // ------------------------------------------------------------------
  // get_dividends
  // ------------------------------------------------------------------

  /** The sort key of `sort(key=ex_date, reverse=True)`: a stable ascending sort on the negated date. */
  function NegExDate(e: DividendEvent): int
  {
    -(e.exDate as int)
  }

  /**
   * `get_dividends`: the report's events, latest ex-date first, truncated to
   * `limit`; when the report gives none, the tick's event truncated to
   * `limit`; a failure to connect becomes a retryable provider error.
   */
  function DividendsOutcome(symbol: string, limit: int, connect: Option<Exception>, report: Option<Element>,
                            tick: Option<string>, formats: seq<string -> Option<Date>>,
                            parseFloat: string -> Option<real>): Outcome<seq<DividendEvent>>
  {
    if connect.Some? then
      (if connect.value.MarketDataExc? then Raised(connect.value)
       else Raised(MarketDataExc(MarketDataError("IB get_dividends failed", ProviderError, true))))
    else
      var fromReport := if report.Some? then ReportEvents(symbol, Preorder(report.value), formats, parseFloat) else [];
      if fromReport != [] then Returned(SliceTo(SortBy(fromReport, NegExDate), limit))
      else Returned(SliceTo(TickEvents(symbol, tick, formats, parseFloat), limit))
  }

  method GetDividends(symbol: string, limit: int, connect: Option<Exception>, report: Option<Element>,
                      tick: Option<string>, formats: seq<string -> Option<Date>>,
                      parseFloat: string -> Option<real>) returns (r: Outcome<seq<DividendEvent>>)
    ensures r == DividendsOutcome(symbol, limit, connect, report, tick, formats, parseFloat)
  {
    if connect.Some? {
      if connect.value.MarketDataExc? {
        return Raised(connect.value);
      }
      return Raised(MarketDataExc(MarketDataError("IB get_dividends failed", ProviderError, true)));
    }
    var events := DividendsFromReport(symbol, report, formats, parseFloat);
    if events != [] {
      var sorted := SortBy(events, NegExDate);
      return Returned(SliceTo(sorted, limit));
    }
    var fromTick := TickEvents(symbol, tick, formats, parseFloat);
    if fromTick != [] {
      return Returned(SliceTo(fromTick, limit));
    }
    return Returned([]);
  }

  /**
   * When the report yields events, the result is the first `limit` of them
   * ordered by ex-date, latest first, equal dates in report order, and the
   * tick plays no part; otherwise it is the tick's event, if any.
   */
  lemma DividendsMeaning(symbol: string, limit: int, report: Option<Element>, tick: Option<string>, other: Option<string>,
                         formats: seq<string -> Option<Date>>, parseFloat: string -> Option<real>)
    ensures var fromReport := if report.Some? then ReportEvents(symbol, Preorder(report.value), formats, parseFloat) else [];
            var r := DividendsOutcome(symbol, limit, None, report, tick, formats, parseFloat);
            r.Returned?
            && (fromReport != [] ==>
                  var all := SortBy(fromReport, NegExDate);
                  multiset(all) == multiset(fromReport)
                  && (forall i, j :: 0 <= i < j < |all| ==> all[i].exDate >= all[j].exDate)
                  && (forall d :: Filter(all, KeyIs(NegExDate, d)) == Filter(fromReport, KeyIs(NegExDate, d)))
                  && r.value == SliceTo(all, limit)
                  && r == DividendsOutcome(symbol, limit, None, report, other, formats, parseFloat))
            && (fromReport == [] ==> r.value == SliceTo(TickEvents(symbol, tick, formats, parseFloat), limit))
  {
    var fromReport := if report.Some? then ReportEvents(symbol, Preorder(report.value), formats, parseFloat) else [];
    if fromReport != [] {
      var all := SortBy(fromReport, NegExDate);
      SortByPermutes(fromReport, NegExDate);
      SortBySorted(fromReport, NegExDate);
      forall d
        ensures Filter(all, KeyIs(NegExDate, d)) == Filter(fromReport, KeyIs(NegExDate, d))
      {
        SortByStable(fromReport, NegExDate, d);
      }
    }
  }
}
