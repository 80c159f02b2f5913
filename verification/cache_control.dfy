/** The `Cache-Control` value every variant builds: a list of directives,
    chosen by guards, filtered (`.filter(Boolean)`) and joined with ", ".
    `Parse` is the inverse of `Render`, so a statement about the directive
    list is a statement about the header text. */
module CacheControl {
  import opened Wrappers
  import Decimal

  /** One directive. An age holds the value a template literal interpolates:
      a number, or JavaScript `null` (`None`), which renders as "null". */
  datatype Directive =
    | Private
    | Public
    | MaxAge(age: Option<nat>)
    | SMaxAge(age: Option<nat>)
    | MustRevalidate
    | NoCache

  function RenderAge(age: Option<nat>): (s: string)
    ensures |s| > 0 && ',' !in s
  {
    match age
    case Some(n) => Decimal.FromNat(n)
    case None => "null"
  }

  function ParseAge(s: string): Option<Option<nat>> {
    if s == "null" then Some(None)
    else
      match Decimal.ToNat(s)
      case Some(n) => Some(Some(n))
      case None => None
  }

  lemma ParseAgeRoundTrip(age: Option<nat>)
    ensures ParseAge(RenderAge(age)) == Some(age)
  {
    match age
    case None =>
    case Some(n) =>
      var s := Decimal.FromNat(n);
      assert s != "null" by { assert Decimal.IsDigit(s[0]); }
      Decimal.ToNatFromNat(n);
  }

  /** The text of one directive. */
  function Text(d: Directive): (s: string)
    ensures |s| > 0 && ',' !in s
  {
    match d
    case Private => "private"
    case Public => "public"
    case MaxAge(a) => "max-age=" + RenderAge(a)
    case SMaxAge(a) => "s-maxage=" + RenderAge(a)
    case MustRevalidate => "must-revalidate"
    case NoCache => "no-cache"
  }

  /** `parts.join(', ')` over the directives' texts. */
  function Render(ds: seq<Directive>): string {
    if |ds| == 0 then ""
    else if |ds| == 1 then Text(ds[0])
    else Text(ds[0]) + ", " + Render(ds[1..])
  }

  lemma RenderCons(d: Directive, ds: seq<Directive>)
    requires |ds| > 0
    ensures Render([d] + ds) == Text(d) + ", " + Render(ds)
  {
    assert ([d] + ds)[1..] == ds;
  }

  function ParseDirective(t: string): Option<Directive> {
    if t == "private" then Some(Private)
    else if t == "public" then Some(Public)
    else if t == "must-revalidate" then Some(MustRevalidate)
    else if t == "no-cache" then Some(NoCache)
    else if |t| >= 8 && t[..8] == "max-age=" then
      match ParseAge(t[8..])
      case Some(a) => Some(MaxAge(a))
      case None => None
    else if |t| >= 9 && t[..9] == "s-maxage=" then
      match ParseAge(t[9..])
      case Some(a) => Some(SMaxAge(a))
      case None => None
    else None
  }

  function IndexOf(s: string, c: char): (i: nat)
    requires c in s
    ensures i < |s| && s[i] == c && c !in s[..i]
  {
    if s[0] == c then 0
    else
      assert s == [s[0]] + s[1..];
      var j := IndexOf(s[1..], c);
      assert s[..j + 1] == [s[0]] + s[1..][..j];
      j + 1
  }

  /** Reads a header value back into its directives: items separated by
      ", ", each of which must be a known directive. */
  function Parse(s: string): Option<seq<Directive>> {
    if s == "" then Some([]) else ParseItems(s)
  }

  function ParseItems(s: string): Option<seq<Directive>>
    decreases |s|
  {
    if ',' !in s then
      match ParseDirective(s)
      case Some(d) => Some([d])
      case None => None
    else
      var i := IndexOf(s, ',');
      if i + 1 < |s| && s[i + 1] == ' ' then
        match (ParseDirective(s[..i]), ParseItems(s[i + 2..]))
        case (Some(d), Some(rest)) => Some([d] + rest)
        case _ => None
      else None
  }

  lemma ParseText(d: Directive)
    ensures ParseDirective(Text(d)) == Some(d)
  {
    var t := Text(d);
    match d
    case MaxAge(a) =>
      assert t[0] == 'm' && t[1] == 'a';
      assert t[..8] == "max-age=" && t[8..] == RenderAge(a);
      ParseAgeRoundTrip(a);
    case SMaxAge(a) =>
      assert t[0] == 's';
      assert t[..9] == "s-maxage=" && t[9..] == RenderAge(a);
      ParseAgeRoundTrip(a);
    case _ =>
  }

  lemma IndexAfterText(t: string, rest: string)
    requires ',' !in t && |rest| > 0 && rest[0] == ','
    ensures ',' in t + rest
    ensures IndexOf(t + rest, ',') == |t|
  {
    var s := t + rest;
    assert s[|t|] == ',';
  }

  /** One step of `ParseItems` over `t + ", " + tail`. */
  lemma ParseItemsStep(t: string, tail: string)
    requires ',' !in t
    ensures ParseItems(t + ", " + tail) ==
      match (ParseDirective(t), ParseItems(tail))
      case (Some(d), Some(rest)) => Some([d] + rest)
      case _ => None
  {
    var s := t + ", " + tail;
    assert s == t + (", " + tail);
    IndexAfterText(t, ", " + tail);
    assert s[..|t|] == t;
    assert s[|t| + 2..] == tail;
  }

  lemma {:induction false} ParseItemsRender(ds: seq<Directive>)
    requires |ds| > 0
    ensures ParseItems(Render(ds)) == Some(ds)
  {
    ParseText(ds[0]);
    if |ds| == 1 {
      assert ds == [ds[0]];
    } else {
      ParseItemsStep(Text(ds[0]), Render(ds[1..]));
      ParseItemsRender(ds[1..]);
      assert [ds[0]] + ds[1..] == ds;
    }
  }

  /** The header text determines the directive list: parsing a rendered list
      gives that list back. */
  lemma ParseRender(ds: seq<Directive>)
    ensures Parse(Render(ds)) == Some(ds)
  {
    if |ds| > 0 {
      ParseItemsRender(ds);
      assert Render(ds) != "" by {
        if |ds| == 1 {
          assert Render(ds) == Text(ds[0]);
        } else {
          assert |Render(ds)| >= |Text(ds[0])|;
        }
      }
    }
  }

  /** `[g1 && 'a', g2 && 'b', ...].filter(Boolean)`: a part whose guard
      failed is `None` and is dropped; the others keep their order. */
  function Keep(parts: seq<Option<Directive>>): (ds: seq<Directive>)
    ensures |ds| <= |parts|
  {
    if |parts| == 0 then [] else Lift(parts[0]) + Keep(parts[1..])
  }

  /** The directive a part contributes: none when its guard failed. */
  function Lift(p: Option<Directive>): seq<Directive> {
    match p
    case Some(d) => [d]
    case None => []
  }

  lemma KeepCons(p: Option<Directive>, ps: seq<Option<Directive>>)
    ensures Keep([p] + ps) == Lift(p) + Keep(ps)
  {
    assert ([p] + ps)[1..] == ps;
  }

  /** A directive survives filtering iff some part holds it. */
  lemma {:induction false} KeepMembers(parts: seq<Option<Directive>>)
    ensures forall d :: d in Keep(parts) <==> Some(d) in parts
  {
    if |parts| > 0 {
      KeepMembers(parts[1..]);
      assert parts == [parts[0]] + parts[1..];
    }
  }

  /** `Keep` of a literal list, one part at a time. */
  lemma KeepOne(e: Option<Directive>)
    ensures Keep([e]) == Lift(e)
  {
    KeepCons(e, []);
    assert [e] + [] == [e];
  }

  lemma KeepTwo(d: Option<Directive>, e: Option<Directive>)
    ensures Keep([d, e]) == Lift(d) + Lift(e)
  {
    KeepOne(e);
    KeepCons(d, [e]);
    assert [d] + [e] == [d, e];
  }

  lemma KeepThree(c: Option<Directive>, d: Option<Directive>, e: Option<Directive>)
    ensures Keep([c, d, e]) == Lift(c) + (Lift(d) + Lift(e))
  {
    KeepTwo(d, e);
    KeepCons(c, [d, e]);
    assert [c] + [d, e] == [c, d, e];
  }

  lemma KeepFour(b: Option<Directive>, c: Option<Directive>, d: Option<Directive>, e: Option<Directive>)
    ensures Keep([b, c, d, e]) == Lift(b) + (Lift(c) + (Lift(d) + Lift(e)))
  {
    KeepThree(c, d, e);
    KeepCons(b, [c, d, e]);
    assert [b] + [c, d, e] == [b, c, d, e];
  }

  lemma KeepFive(a: Option<Directive>, b: Option<Directive>, c: Option<Directive>, d: Option<Directive>,
                 e: Option<Directive>)
    ensures Keep([a, b, c, d, e]) == Lift(a) + (Lift(b) + (Lift(c) + (Lift(d) + Lift(e))))
  {
    KeepFour(b, c, d, e);
    KeepCons(a, [b, c, d, e]);
    assert [a] + [b, c, d, e] == [a, b, c, d, e];
  }

  /** The part for `guard && directive`. */
  function When(guard: bool, d: Directive): Option<Directive> {
    if guard then Some(d) else None
  }

  /** Ranks strictly increase along the list: the order is fixed and no
      directive repeats. */
  predicate InOrder(ds: seq<Directive>, rank: Directive -> nat) {
    forall i, j :: 0 <= i < j < |ds| ==> rank(ds[i]) < rank(ds[j])
  }

  predicate PartsInOrder(parts: seq<Option<Directive>>, rank: Directive -> nat) {
    forall i, j :: 0 <= i < j < |parts| && parts[i].Some? && parts[j].Some? ==>
      rank(parts[i].value) < rank(parts[j].value)
  }

  lemma TailPartsInOrder(parts: seq<Option<Directive>>, rank: Directive -> nat)
    requires |parts| > 0 && PartsInOrder(parts, rank)
    ensures PartsInOrder(parts[1..], rank)
  {
    var rest := parts[1..];
    forall i, j | 0 <= i < j < |rest| && rest[i].Some? && rest[j].Some?
      ensures rank(rest[i].value) < rank(rest[j].value)
    {
      assert rest[i] == parts[i + 1] && rest[j] == parts[j + 1];
    }
  }

  lemma HeadBeforeKept(parts: seq<Option<Directive>>, rank: Directive -> nat, e: Directive)
    requires |parts| > 0 && parts[0].Some? && PartsInOrder(parts, rank)
    requires e in Keep(parts[1..])
    ensures rank(parts[0].value) < rank(e)
  {
    var rest := parts[1..];
    KeepMembers(rest);
    assert Some(e) in rest;
    var j :| 0 <= j < |rest| && rest[j] == Some(e);
    assert parts[j + 1] == Some(e);
  }

  /** Filtering keeps the order of the parts that survive. */
  lemma {:induction false} KeepInOrder(parts: seq<Option<Directive>>, rank: Directive -> nat)
    requires PartsInOrder(parts, rank)
    ensures InOrder(Keep(parts), rank)
  {
    if |parts| > 0 {
      TailPartsInOrder(parts, rank);
      KeepInOrder(parts[1..], rank);
      if parts[0].Some? {
        var k := Keep(parts[1..]);
        var ds := [parts[0].value] + k;
        assert Keep(parts) == ds;
        forall i, j | 0 <= i < j < |ds|
          ensures rank(ds[i]) < rank(ds[j])
        {
          assert ds[j] == k[j - 1];
          if i == 0 {
            HeadBeforeKept(parts, rank, k[j - 1]);
          } else {
            assert ds[i] == k[i - 1];
          }
        }
      }
    }
  }

  /** Canonical order: visibility, then ages, then `must-revalidate`. */
  function CanonicalRank(d: Directive): nat {
    match d
    case Private => 0
    case Public => 1
    case MaxAge(_) => 2
    case SMaxAge(_) => 3
    case MustRevalidate => 4
    case NoCache => 5
  }

  /** No directive carries a JavaScript `null` age. */
  predicate NoNullAge(ds: seq<Directive>) {
    MaxAge(None) !in ds && SMaxAge(None) !in ds
  }
}
