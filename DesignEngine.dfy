/** The placeholder outline generator `generate_outline_sync`. */
module DesignEngine {
  import opened Builtins
  import opened Slides

  /** `[f"重點 {j}" for j in range(1, 4)]`. */
  function Bullets(): (b: seq<string>)
    ensures b == ["重點 1", "重點 2", "重點 3"]
  {
    var b := seq(3, j requires 0 <= j < 3 => "重點 " + NatToDecimal(j + 1));
    assert NatToDecimal(1) == "1" && NatToDecimal(2) == "2" && NatToDecimal(3) == "3";
    assert b[0] == "重點 1" && b[1] == "重點 2" && b[2] == "重點 3";
    b
  }

  /** `max(1, length)` slides, numbered from 1, each with the three fixed
      bullets. `audience` and `style` are accepted and ignored: the result
      is determined by `title` and `length` alone (see `NumberedUnique`). */
  method GenerateOutlineSync(title: string, audience: Option<string>, length: int, style: Option<string>)
    returns (slides: seq<Slide>)
    ensures Numbered(slides, title, if length < 1 then 1 else length, ["重點 1", "重點 2", "重點 3"])
  {
    var n := if length < 1 then 1 else length;
    slides := [];
    var i := 1;
    while i <= n
      invariant 1 <= i <= n + 1
      invariant Numbered(slides, title, i - 1, Bullets())
    {
      slides := slides + [Slide(SlideTitle(title, i), Bullets())];
      i := i + 1;
    }
  }
}
