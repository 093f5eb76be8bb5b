/**
 * Board parameters and the designer's helper methods. The writers ask two position helpers
 * where a component and a pin sit, and hand the mask and silkscreen layers to two further
 * helpers; the program never defines any of the four, so the model takes them as arbitrary
 * total functions and nothing is assumed about their values.
 */
module Board {
  import opened Wrappers
  import opened Units
  import opened Components
  import opened Gerber

  /** The `board_params` dictionary: each key may be missing. */
  datatype BoardParams = BoardParams(width: Option<real>, height: Option<real>, layers: Option<int>)

  /** `board_params.get('width', 100)`. */
  function Width(bp: BoardParams): real { bp.width.GetOr(100.0) }

  /** `board_params.get('height', 80)`. */
  function Height(bp: BoardParams): real { bp.height.GetOr(80.0) }

  /**
   * `_get_component_position(i, cols, width, height)` and `_get_pin_position(component, pin)`,
   * both in millimetres, and what `_generate_solder_mask` and `_generate_silkscreen` write
   * into a layer file given the layer name (with `ok` false when the helper raises).
   */
  datatype Helpers = Helpers(
    component: (nat, nat, real, real) -> (real, real),
    pin: (nat, PinRef) -> (real, real),
    solderMask: string -> Emitted<Command>,
    silkscreen: string -> Emitted<Command>)

  /** Where component i of n sits on the placement grid of the board. */
  function Position(pl: Helpers, i: nat, n: nat, bp: BoardParams): (real, real)
  {
    pl.component(i, Cols(n), Width(bp), Height(bp))
  }
}
