/** The slide record both outline generators produce:
    `{"title": ..., "bullets": [...]}`, titled `"{title} - 第 {i} 頁"`. */
module Slides {
  import opened Builtins

  datatype Slide = Slide(title: string, bullets: seq<string>)

  /** `f"{title} - 第 {i} 頁"` for a slide number `i` (never negative here):
      the title, then ` - 第 `, then the digits of `i`, then ` 頁`. */
  function SlideTitle(title: string, i: nat): (t: string)
    ensures |t| == |title| + 5 + |NatToDecimal(i)| + 2
    ensures t[..|title|] == title && t[|title|..|title| + 5] == " - 第 " && t[|t| - 2..] == " 頁"
    ensures IsDigits(t[|title| + 5..|t| - 2]) && DecimalValue(t[|title| + 5..|t| - 2]) == i
  {
    var d := NatToDecimal(i);
    DecimalRoundTrip(i);
    var t := title + " - 第 " + d + " 頁";
    assert t[|title| + 5..|t| - 2] == d;
    t
  }

  /** `slides` is `count` slides numbered 1, 2, ... in order, each with the
      given bullets. */
  ghost predicate Numbered(slides: seq<Slide>, title: string, count: nat, bullets: seq<string>)
  {
    && |slides| == count
    && forall i :: 0 <= i < |slides| ==> slides[i] == Slide(SlideTitle(title, i + 1), bullets)
  }

  /** Different slide numbers give different titles. */
  lemma SlideTitleInjective(title: string, i: nat, j: nat)
    requires SlideTitle(title, i) == SlideTitle(title, j)
    ensures i == j
  {
    var p, q := title + " - 第 ", " 頁";
    var di, dj := NatToDecimal(i), NatToDecimal(j);
    assert SlideTitle(title, i) == p + di + q;
    assert SlideTitle(title, j) == p + dj + q;
    assert |di| == |dj|;
    assert di == (p + di + q)[|p|..|p| + |di|];
    assert dj == (p + dj + q)[|p|..|p| + |dj|];
    DecimalInjective(i, j);
  }

  /** The slides of a numbered outline have pairwise distinct titles. */
  lemma NumberedTitlesDistinct(slides: seq<Slide>, title: string, count: nat, bullets: seq<string>, i: nat, j: nat)
    requires Numbered(slides, title, count, bullets)
    requires i < j < |slides|
    ensures slides[i].title != slides[j].title
  {
    if slides[i].title == slides[j].title {
      SlideTitleInjective(title, i + 1, j + 1);
    }
  }

  /** A numbered outline is determined by its title, count and bullets. */
  lemma NumberedUnique(s: seq<Slide>, t: seq<Slide>, title: string, count: nat, bullets: seq<string>)
    requires Numbered(s, title, count, bullets) && Numbered(t, title, count, bullets)
    ensures s == t
  {
    assert forall i :: 0 <= i < |s| ==> s[i] == t[i];
  }
}
