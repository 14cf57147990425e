/**
 * The CSS transform of the legacy block script's hidden state
 * (src/utils/calculate-transform.js, with the constants of
 * src/constants/index.js): a translation and a scale chosen by the
 * animation type and, for slides, the direction.
 */
module CalculateTransform {
  /** `ANIMATION_TYPES`. */
  const Fade := "fade"
  const Slide := "slide"
  const Spring := "spring"

  /** `ANIMATION_DIRECTIONS`. */
  const Center := "center"
  const Up := "up"
  const Down := "down"
  const Left := "left"
  const Right := "right"

  /** `ANIMATION_DISTANCE` and `ANIMATION_SCALE`. */
  const Distance := "20px"
  const SlideCenterScale := "0.95"
  const SpringScale := "0.9"

  /** The resting transform an element in view gets. */
  const Resting := "translate(0, 0) scale(1)"

  /** The template the function fills in. */
  function Render(translateX: string, translateY: string, scale: string): string
  {
    "translate(" + translateX + ", " + translateY + ") scale(" + scale + ")"
  }

  /** A hidden element whose type moves nothing renders exactly the resting transform. */
  lemma {:induction false} RestingIsTheIdentityRender()
    ensures Render("0", "0", "1") == Resting
  {
    assert "translate(" + "0" + ", " == "translate(0, ";
    assert "translate(0, " + "0" + ") scale(" == "translate(0, 0) scale(";
    assert "translate(0, 0) scale(" + "1" + ")" == Resting;
  }

  /** Only the identity arguments render the resting transform: any other translation or scale renders something else. */
  lemma {:induction false} RestingOnlyWhenUnmoved(translateX: string, translateY: string, scale: string)
    ensures Render(translateX, translateY, scale) == Resting <==> translateX == "0" && translateY == "0" && scale == "1"
  {
    RestingIsTheIdentityRender();
    var r := Render(translateX, translateY, scale);
    if r == Resting {
      var (nx, ny) := (|translateX|, |translateY|);
      assert |r| == 21 + nx + ny + |scale|;
      assert nx + ny + |scale| == 3;
      // The comma after the first argument is the resting string's only comma among positions 10 to 13.
      assert r[10 + nx] == ',';
      assert nx == 1;
      // The parenthesis after the second argument is its only one among positions 13 to 15.
      assert r[13 + ny] == ')';
      assert ny == 1 && |scale| == 1;
      assert translateX == [r[10]] && translateY == [r[13]] && scale == [r[22]];
    }
  }

  /**
   * `calculateTransform`: in view, the resting transform; otherwise a slide
   * moves 20px along the direction's axis or shrinks to 0.95 for the
   * centre, a spring shrinks to 0.9, and anything else stays unmoved.
   */
  method Calculate(inView: bool, animationType: string, direction: string) returns (transform: string)
    ensures inView ==> transform == Resting
    ensures !inView && animationType == Slide && direction == Up ==> transform == Render("0", "-" + Distance, "1")
    ensures !inView && animationType == Slide && direction == Down ==> transform == Render("0", Distance, "1")
    ensures !inView && animationType == Slide && direction == Left ==> transform == Render("-" + Distance, "0", "1")
    ensures !inView && animationType == Slide && direction == Right ==> transform == Render(Distance, "0", "1")
    ensures !inView && animationType == Slide && direction == Center ==> transform == Render("0", "0", SlideCenterScale)
    ensures !inView && animationType == Slide && direction !in {Up, Down, Left, Right, Center} ==> transform == Render("0", "0", "1")
    ensures !inView && animationType == Spring ==> transform == Render("0", "0", SpringScale)
    ensures !inView && animationType != Slide && animationType != Spring ==> transform == Render("0", "0", "1")
  {
    if inView {
      return Resting;
    }
    var translateX := "0";
    var translateY := "0";
    var scale := "1";
    if animationType == Slide {
      if direction == Up {
        translateY := "-" + Distance;
      } else if direction == Down {
        translateY := Distance;
      } else if direction == Left {
        translateX := "-" + Distance;
      } else if direction == Right {
        translateX := Distance;
      } else if direction == Center {
        scale := SlideCenterScale;
      }
    } else if animationType == Spring {
      scale := SpringScale;
    }
    transform := Render(translateX, translateY, scale);
  }
}
