/**
 * RemapperManager: loads the default Remapper when it is created, routes
 * gamepad events through it, and while there is none shows a capture
 * session instead, installing and saving the Remapper the session hands
 * back. The "default_map" entry of the "remapper_preference" shared
 * preferences is the field `stored` (None while nothing is stored).
 */
module Manager {
  import opened AndroidInput
  import opened Wrappers
  import opened JsonStore
  import opened Remap
  import opened RemapStore
  import opened View

  /**
   * What the manager's constructor ends up holding for a stored record: the
   * loaded Remapper, no Remapper when loading raised JSONException (which it
   * catches), or the NumberFormatException it lets escape.
   */
  ghost function Restored(stored: Option<Json>): Result<Option<Remapper>, LoadError>
  {
    match LoadSpec(stored)
    case Ok(r) => Ok(Some(r))
    case Err(JSONException) => Ok(None)
    case Err(NumberFormatException) => Err(NumberFormatException)
  }

  /** A Remapper the manager saved is the one a manager created afterwards loads. */
  lemma SavedRemapperIsRestored(r: Remapper)
    requires r.Valid()
    ensures Restored(Some(EncodeRecord(r.keyMap, r.motionMap))) == Ok(Some(r))
  {
    SaveLoadRoundTrip(r);
  }

  /** With nothing stored, a new manager starts without a Remapper. */
  lemma NothingStoredStartsEmpty()
    ensures Restored(None) == Ok(None)
  {
  }

  /** A stored table entry whose name is not a number makes creating the manager fail. */
  lemma BadKeyNameEscapes(value: int32)
    ensures Restored(Some(JObject([Member("keyMap", JObject([Member("up", JInt(value))])),
                                   Member("motionMap", JObject([]))]))).Err?
  {
    BadKeyNameFails(value);
  }

  class RemapperManager {
    const builder: Builder
    var remapper: Option<Remapper>
    var remapperView: RemapperView?
    /** The "default_map" preference. */
    var stored: Option<Json>

    /**
     * The manager's invariant: a present Remapper has the reverse maps its
     * tables determine; a manager with a Remapper shows no capture view; and
     * the held Remapper is exactly what creating a manager from the stored
     * preference would restore.
     */
    ghost predicate Valid()
      reads this
    {
      && (remapper.Some? ==> remapper.value.Valid())
      && (remapper.Some? ==> remapperView == null)
      && Restored(stored) == Ok(remapper)
    }

    constructor Init(builder: Builder, stored: Option<Json>, remapper: Option<Remapper>)
      ensures this.builder == builder && this.stored == stored && this.remapper == remapper
      ensures remapperView == null
    {
      this.builder := builder;
      this.stored := stored;
      this.remapper := remapper;
      remapperView := null;
    }

    /**
     * The constructor `RemapperManager(context, builder)`: load the default
     * Remapper; JSONException leaves the manager without one, while
     * NumberFormatException is not caught and no manager results.
     */
    static method Create(builder: Builder, stored: Option<Json>) returns (result: Result<RemapperManager, LoadError>)
      ensures result.Ok? <==> Restored(stored).Ok?
      ensures result.Err? ==> result.error == NumberFormatException
      ensures result.Ok? ==>
        && fresh(result.value)
        && result.value.Valid()
        && result.value.builder == builder && result.value.stored == stored
        && result.value.remapper == Restored(stored).value
        && result.value.remapperView == null
    {
      var loaded := Load(stored);
      var remapper: Option<Remapper>;
      match loaded {
        case Ok(r) =>
          remapper := Some(r);
        case Err(JSONException) =>
          remapper := None;
        case Err(NumberFormatException) =>
          return Err(NumberFormatException);
      }
      var manager := new RemapperManager.Init(builder, stored, remapper);
      result := Ok(manager);
    }

    /**
     * buildView: false when a Remapper is present; otherwise true, after
     * building and showing a capture view unless one is already shown.
     */
    method BuildView() returns (showing: bool)
      requires Valid()
      modifies this
      ensures Valid()
      ensures showing <==> old(remapper).None?
      ensures remapper == old(remapper) && stored == old(stored)
      ensures old(remapper).Some? || old(remapperView) != null ==> remapperView == old(remapperView)
      ensures old(remapper).None? && old(remapperView) == null ==>
        && remapperView != null && fresh(remapperView)
        && remapperView.Valid() && !remapperView.initialized
        && remapperView.Shows(Selected(builder.flags, FullPrompts))
    {
      if remapper.Some? {
        return false;
      }
      if remapperView != null {
        return true;
      }
      var view := builder.Build();
      remapperView := view;
      return true;
    }

    /** handleKeyEventInput: route the event through the Remapper, or show the capture view and consume it. */
    method HandleKeyEventInput(e: KeyEvent) returns (h: Handled)
      requires Valid()
      modifies this
      ensures Valid()
      ensures remapper == old(remapper) && stored == old(stored)
      ensures remapper.None? ==> h == Handled(true, []) && remapperView != null
      ensures remapper.Some? ==> h == Remap.HandleKeyEventInput(remapper.value, e) && remapperView == null
      ensures old(remapperView) != null ==> remapperView == old(remapperView)
      ensures remapper.None? && old(remapperView) == null ==>
        && remapperView != null && fresh(remapperView)
        && remapperView.Valid() && !remapperView.initialized
        && remapperView.Shows(Selected(builder.flags, FullPrompts))
    {
      var showing := BuildView();
      if showing {
        return Handled(true, []);
      }
      h := Remap.HandleKeyEventInput(remapper.value, e);
    }

    /** handleMotionEventInput: route the event through the Remapper, or show the capture view and consume it. */
    method HandleMotionEventInput(e: MotionEvent) returns (h: Handled)
      requires Valid()
      modifies this
      ensures Valid()
      ensures remapper == old(remapper) && stored == old(stored)
      ensures remapper.None? ==> h == Handled(true, []) && remapperView != null
      ensures remapper.Some? ==> h == Remap.HandleMotionEventInput(remapper.value, e) && remapperView == null
      ensures old(remapperView) != null ==> remapperView == old(remapperView)
      ensures remapper.None? && old(remapperView) == null ==>
        && remapperView != null && fresh(remapperView)
        && remapperView.Valid() && !remapperView.initialized
        && remapperView.Shows(Selected(builder.flags, FullPrompts))
    {
      var showing := BuildView();
      if showing {
        return Handled(true, []);
      }
      h := Remap.HandleMotionEventInput(remapper.value, e);
    }

    /**
     * The listener `buildView` installs: drop the view; when a Remapper came
     * back, install it and save it as the default map.
     */
    method OnRemapDone(done: Option<Remapper>)
      requires Valid()
      requires done.Some? ==> done.value.Valid()
      modifies this
      ensures Valid()
      ensures remapperView == null
      ensures done.None? ==> remapper == old(remapper) && stored == old(stored)
      ensures done.Some? ==>
        remapper == done && stored == Some(EncodeRecord(done.value.keyMap, done.value.motionMap))
    {
      remapperView := null;
      if done.None? {
        return;
      }
      remapper := done;
      var record := Save(done.value);
      stored := Some(record);
      SavedRemapperIsRestored(done.value);
    }
  }
}
