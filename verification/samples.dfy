/** The rendered texts of the ages the scenario lemmas use, unfolded one
    digit at a time. */
module Samples {
  import opened Wrappers
  import opened CacheControl
  import Decimal

  lemma Age60()
    ensures Text(MaxAge(Some(60))) == "max-age=60"
    ensures Text(SMaxAge(Some(60))) == "s-maxage=60"
  {
    assert Decimal.FromNat(6) == "6";
    assert Decimal.FromNat(60) == "60";
  }

  lemma Age120()
    ensures Text(MaxAge(Some(120))) == "max-age=120"
  {
    assert Decimal.FromNat(1) == "1";
    assert Decimal.FromNat(12) == "12";
    assert Decimal.FromNat(120) == "120";
  }

  lemma Age300()
    ensures Text(SMaxAge(Some(300))) == "s-maxage=300"
  {
    assert Decimal.FromNat(3) == "3";
    assert Decimal.FromNat(30) == "30";
    assert Decimal.FromNat(300) == "300";
  }

  lemma RenderTwo(a: Directive, b: Directive)
    ensures Render([a, b]) == Text(a) + ", " + Text(b)
  {
    RenderCons(a, [b]);
    assert [a] + [b] == [a, b];
  }

  lemma RenderThree(a: Directive, b: Directive, c: Directive)
    ensures Render([a, b, c]) == Text(a) + ", " + (Text(b) + ", " + Text(c))
  {
    assert [b, c][1..] == [c];
    assert Render([b, c]) == Text(b) + ", " + Text(c);
    assert [a, b, c][1..] == [b, c];
  }

  lemma JoinPublicAge120Shared300()
    ensures "public" + ", " + ("max-age=120" + ", " + "s-maxage=300") == "public, max-age=120, s-maxage=300"
  {
  }

  lemma PublicAge120Shared300()
    ensures Render([Public, MaxAge(Some(120)), SMaxAge(Some(300))]) == "public, max-age=120, s-maxage=300"
  {
    RenderThree(Public, MaxAge(Some(120)), SMaxAge(Some(300)));
    Age120();
    Age300();
    JoinPublicAge120Shared300();
  }

  lemma JoinPublicAge60Shared60()
    ensures "public" + ", " + ("max-age=60" + ", " + "s-maxage=60") == "public, max-age=60, s-maxage=60"
  {
  }

  lemma PublicAge60Shared60()
    ensures Render([Public, MaxAge(Some(60)), SMaxAge(Some(60))]) == "public, max-age=60, s-maxage=60"
  {
    RenderThree(Public, MaxAge(Some(60)), SMaxAge(Some(60)));
    Age60();
    JoinPublicAge60Shared60();
  }

  lemma PublicAge60()
    ensures Render([Public, MaxAge(Some(60))]) == "public, max-age=60"
  {
    Age60();
    RenderTwo(Public, MaxAge(Some(60)));
  }

  lemma PublicSharedNull()
    ensures Render([Public, SMaxAge(None)]) == "public, s-maxage=null"
  {
    RenderTwo(Public, SMaxAge(None));
  }

  lemma MustRevalidateAge60()
    ensures Render([MustRevalidate, MaxAge(Some(60))]) == "must-revalidate, max-age=60"
  {
    Age60();
    RenderTwo(MustRevalidate, MaxAge(Some(60)));
  }
}
