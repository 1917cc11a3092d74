/**
 * The drawer's two location fields (src/pages/components/Drawer/DrawerContent.tsx):
 * which context value and which required flag each field is bound to, and
 * the closure each passes as `clearIsRequiredError`.
 */
module DrawerFields {
  import LocationInput
  import DrawerContext
  import opened Js
  import opened Api

  datatype Field = Starting | Dropoff

  function Other(f: Field): Field {
    if f.Starting? then Dropoff else Starting
  }

  function Label(f: Field): string {
    if f.Starting? then "Starting Location" else "Drop-off Location"
  }

  /** The position of the field's flag in `inputIsRequiredError`. */
  function FlagIndex(f: Field): nat {
    if f.Starting? then 0 else 1
  }

  /** `inputIsRequiredError[FlagIndex(f)]`. */
  function Flag(f: Field, flags: (bool, bool)): bool {
    if FlagIndex(f) == 0 then flags.0 else flags.1
  }

  /** The field's clearIsRequiredError closure: the field's own flag goes off, the other field's flag is kept. */
  function ClearFlag(f: Field, flags: (bool, bool)): (r: (bool, bool))
    ensures !Flag(f, r)
    ensures Flag(Other(f), r) == Flag(Other(f), flags)
  {
    if FlagIndex(f) == 0 then (false, flags.1) else (flags.0, false)
  }

  /** Clearing both fields' flags, in either order, leaves neither set. */
  lemma ClearBoth(f: Field, flags: (bool, bool))
    ensures ClearFlag(Other(f), ClearFlag(f, flags)) == (false, false)
  {
  }

  /** The field's current value in the context. */
  function Location(f: Field, ctx: DrawerContext.DrawerContextProvider): string
    reads ctx
  {
    if f.Starting? then ctx.startingLocation else ctx.dropoffLocation
  }

  /**
   * Typing `newValue` into field `f`: LocationInput's onInputChange run
   * against the field's binding. The field takes the value, its flag and
   * helper text are cleared, the other field and its flag stay as they
   * were, and the debounced fetch is scheduled for `newValue`.
   */
  method OnFieldInput(ctx: DrawerContext.DrawerContextProvider, f: Field, newValue: string) returns (fetchFor: string)
    modifies ctx
    ensures Location(f, ctx) == newValue && Location(Other(f), ctx) == old(Location(Other(f), ctx))
    ensures !Flag(f, ctx.inputIsRequiredError) && LocationInput.HelperText(Label(f), Flag(f, ctx.inputIsRequiredError)) == ""
    ensures Flag(Other(f), ctx.inputIsRequiredError) == old(Flag(Other(f), ctx.inputIsRequiredError))
    ensures ctx.routeData == old(ctx.routeData) && ctx.error == old(ctx.error) && ctx.isLoading == old(ctx.isLoading)
    ensures ctx.waypoints == old(ctx.waypoints) && ctx.isMobileDrawerOpen == old(ctx.isMobileDrawerOpen)
    ensures fetchFor == newValue
  {
    // The closure captures the flags of the render the input happened in.
    var flags := ctx.inputIsRequiredError;
    var change := LocationInput.OnInputChange(Flag(f, flags), newValue);
    if f.Starting? {
      ctx.SetStartingLocation(change.setValue);
    } else {
      ctx.SetDropoffLocation(change.setValue);
    }
    if change.clearsFlag {
      ctx.SetInputIsRequiredError(ClearFlag(f, flags));
    }
    fetchFor := change.fetchFor;
  }

  /**
   * A submission with the starting field empty flags it; typing into that
   * field then clears its flag and keeps the drop-off flag.
   */
  method EmptyStartThenTyped(ctx: DrawerContext.DrawerContextProvider, token: Try<PostRouteResponse>, path: Try<GetRouteResponse>)
    modifies ctx
    requires ctx.startingLocation == ""
    ensures ctx.inputIsRequiredError == (false, old(ctx.dropoffLocation) == "")
    ensures ctx.startingLocation == "A" && ctx.dropoffLocation == old(ctx.dropoffLocation)
  {
    var pending := ctx.OnSubmit(token, path);
    assert pending == [];
    var _ := OnFieldInput(ctx, Starting, "A");
  }
}
