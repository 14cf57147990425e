/**
 * The preset names of the shared type module (src/shared/types/index.ts),
 * in declaration order: `Object.values` of a string enum lists its values
 * in that order.
 */
module SharedTypes {
  /** `ENTRANCE_ANIMATION_PRESETS`: the values of `EntranceAnimationType`. */
  const EntrancePresets: seq<string> := [
    "bounce-in", "bounce-in-down", "bounce-in-left", "bounce-in-right", "bounce-in-up",
    "fade-in", "fade-in-down", "fade-in-left", "fade-in-right", "fade-in-up",
    "flip-in-x", "flip-in-y",
    "slide-in-down", "slide-in-left", "slide-in-right", "slide-in-up",
    "zoom-in", "zoom-in-down", "zoom-in-left", "zoom-in-right", "zoom-in-up",
    "rotate-in", "rotate-in-down-left", "rotate-in-down-right", "rotate-in-up-left", "rotate-in-up-right",
    "roll-in"]

  /** `SCROLL_ANIMATION_PRESETS`: the values of `ScrollAnimationType`. */
  const ScrollPresets: seq<string> := ["fade-in-up", "fade-in-down", "scale-in", "slide-in-left", "slide-in-right", "rotate-in"]
}
