/** Main results about the seats, on every run. */
module SeatRuns {
  import opened Values
  import opened Seats
  import opened SeatSafety

  /** The load a seat waits for, still on its way and free to land. */
  predicate OnItsWay(w: World, s: nat)
    requires s < |w.seats|
  {
    var seat := w.seats[s];
    && seat.load < |w.loads| && w.loads[seat.load].seat == s && w.loads[seat.load].generation == seat.generation
    && !w.loads[seat.load].phase.Over? && (DesktopOwned(seat.mod) || w.loads[seat.load].asked == w.rev)
  }

  /** Once no connect holds the registry, a registered seat that was asked for and still shows
      `Loading` has its load on the way, asked of the connection the app is on now. */
  lemma NeverLeftLoading(w: World, m: Module)
    requires Reachable(w) && w.connecting.None?
    requires m in w.registry && w.registry[m] < |w.seats| && w.seats[w.registry[m]].generation > 0 && w.seats[w.registry[m]].slot.Loading?
    ensures OnItsWay(w, w.registry[m])
  {
    ReachableSafe(w);
    assert SeatOk(w, w.registry[m]) && Current(w, m);
  }

  /** ... and when that load lands, whatever it came back with, the seat is `Loading` no more. */
  lemma LandingEndsLoading(w: World, m: Module, l: nat, projects: bool)
    requires Reachable(w) && Formed(w) && w.connecting.None? && m in w.registry
    requires Enabled(w, InstallStep(l, projects)) && w.loads[l].seat == w.registry[m] && w.loads[l].generation == SeatOf(w, m).generation
    ensures !Apply(w, InstallStep(l, projects)).seats[w.registry[m]].slot.Loading?
  {
    ReachableSafe(w);
    LandingFillsSlot(w, l, projects);
  }

  predicate ConnectMove(mv: Move) {
    mv.ConnectInsert? || mv.ConnectRetire? || mv.ConnectSeat? || mv.ConnectEnd?
  }

  /** A connect holding the registry can always take its next step, whatever loads did meanwhile. */
  lemma ConnectNeverStuck(w: World)
    requires Reachable(w) && w.connecting.Some?
    ensures exists mv :: ConnectMove(mv) && Enabled(w, mv)
  {
    ReachableSafe(w);
    var held := w.connecting.value;
    if held.insert != {} {
      var m :| m in held.insert;
      assert Enabled(w, ConnectInsert(m));
    } else if held.retire != {} {
      var m :| m in held.retire;
      assert Enabled(w, ConnectRetire(m));
    } else if held.start != {} {
      var m :| m in held.start;
      assert Enabled(w, ConnectSeat(m));
    } else {
      assert Enabled(w, ConnectEnd);
    }
  }

  /** The fence a load passes to change a seat. */
  predicate Admitted(w: World, l: nat, s: nat)
    requires s < |w.seats|
  {
    && l < |w.loads| && w.loads[l].seat == s && w.loads[l].phase.Done?
    && w.loads[l].generation == w.seats[s].generation && w.seats[s].load == l
    && (DesktopOwned(w.seats[s].mod) || w.loads[l].asked == w.rev)
  }

  predicate Retires(w: World, mv: Move, s: nat) {
    (mv.ConnectRetire? || mv.RetireListed?) && mv.m in w.registry && w.registry[mv.m] == s
  }

  /** What a seat shows changes only by its own view, by its retirement, or by the one load it
      waits for, under the seat's generation and, for a node's view, the connection's revision. */
  lemma OnlyAdmittedLoadsLand(w: World, mv: Move, s: nat)
    requires Reachable(w) && Formed(w) && Enabled(w, mv) && s < |w.seats|
    ensures s < |Apply(w, mv).seats|
    ensures Apply(w, mv).seats[s].slot != w.seats[s].slot ==>
              || (mv.GuestStep? && mv.s == s)
              || Retires(w, mv, s)
              || (mv.InstallStep? && Admitted(w, mv.l, s))
    ensures Apply(w, mv).seats[s].hash != w.seats[s].hash ==> mv.InstallStep? && Admitted(w, mv.l, s)
  {
    ReachableSafe(w);
    if mv.InstallStep? {
      assert LoadOk(w, mv.l);
    }
  }

  /** A block never reloads the deployment a seat already draws: the hash it compares is the drawn view's. */
  lemma BlocksReloadOnlyNewCode(w: World, m: Module, hash: Option<Hash>, replacement: Replacement)
    requires Reachable(w) && Formed(w) && Enabled(w, Reload(m, hash, replacement)) && SeatOf(w, m).slot.Ready?
    ensures hash != SeatOf(w, m).slot.guest.hash
    ensures SeatOf(w, m).slot.guest.everValid ==> replacement.Preserve? && SeatOf(w, m).slot.guest.settled
    ensures SeatOf(w, m).slot.guest.ticks > 0 ==> (replacement.Preserve? <==> SeatOf(w, m).slot.guest.everValid)
  {
    ReachableSafe(w);
    assert SeatOk(w, w.registry[m]);
  }

  /** The candidate was offered exactly what the seated view holds now, at its tick, with nothing pending. */
  predicate Offered(seated: Guest, loaded: Loaded) {
    && loaded.Swap? && loaded.alive == seated.alive && loaded.ticks == seated.ticks && seated.settled
    && loaded.offer.Some? && loaded.offer.value.snapshot == seated.state
  }

  /** The replacement was started from exactly the state the seated view holds. */
  predicate Carries(seated: Guest, loaded: Loaded)
    requires loaded.Swap?
  {
    loaded.guest.restored == Some(seated.state)
  }

  /** The replacement was offered the state and refused it: it started without any. */
  predicate RestoreRefused(loaded: Loaded)
    requires loaded.Swap?
  {
    loaded.offer.Some? && !loaded.offer.value.carried && loaded.guest.restored.None?
  }

  /** Every way a view that once published a valid tree can leave its seat. */
  predicate Leaves(w: World, mv: Move, s: nat, seated: Guest, after: Slot)
    requires s < |w.seats|
  {
    || Retires(w, mv, s)
    || (mv.InstallStep? && Admitted(w, mv.l, s) &&
        var loaded := w.loads[mv.l].phase.loaded;
        || (Offered(seated, loaded) && after == Ready(loaded.guest) && (Carries(seated, loaded) || RestoreRefused(loaded)))
        || (loaded.NoView? && !DesktopOwned(w.seats[s].mod) && after == Empty)
        || (loaded.Fresh? && DesktopOwned(w.seats[s].mod) && w.loads[mv.l].onReady && after == Ready(loaded.guest)))
  }

  predicate Stays(seated: Guest, after: Slot) {
    && after.Ready? && after.guest.alive == seated.alive && after.guest.everValid
    && (after.guest.ticks == seated.ticks ==> after.guest.state == seated.state)
  }

  lemma InstallOverValid(w: World, l: nat, projects: bool, seated: Guest)
    requires Safe(w) && Enabled(w, InstallStep(l, projects)) && w.seats[w.loads[l].seat].slot == Ready(seated) && seated.everValid
    ensures
      var after := Apply(w, InstallStep(l, projects)).seats[w.loads[l].seat].slot;
      Stays(seated, after) || Leaves(w, InstallStep(l, projects), w.loads[l].seat, seated, after)
  {
    assert LoadOk(w, l) && SeatOk(w, w.loads[l].seat);
  }

  /** A view that ever published a valid tree stays, or leaves by one of the named ways: swapped for a
      candidate restored from its very state, or for one that was offered it and refused, removed by the
      node's word, retired with its seat, or, for the desktop's own views, loaded again while seated. */
  lemma ValidViewStaysOrLeaves(w: World, mv: Move, s: nat, seated: Guest)
    requires Reachable(w) && Formed(w) && Enabled(w, mv) && s < |w.seats|
    requires w.seats[s].slot == Ready(seated) && seated.everValid
    ensures s < |Apply(w, mv).seats|
    ensures Stays(seated, Apply(w, mv).seats[s].slot) || Leaves(w, mv, s, seated, Apply(w, mv).seats[s].slot)
  {
    ReachableSafe(w);
    if mv.InstallStep? && w.loads[mv.l].seat == s {
      InstallOverValid(w, mv.l, mv.projects, seated);
    }
  }

  /** A fresh view lands on a seat already showing one exactly when the seat is the desktop's own
      and the load was started while it showed one; never on a node's view. */
  lemma FreshLandsOnReady(w: World, l: nat, projects: bool)
    requires Reachable(w) && Formed(w) && Enabled(w, InstallStep(l, projects)) && Admitted(w, l, w.loads[l].seat)
    requires w.loads[l].phase.loaded.Fresh?
    requires w.seats[w.loads[l].seat].mod in w.registry && w.registry[w.seats[w.loads[l].seat].mod] == w.loads[l].seat
    ensures w.seats[w.loads[l].seat].slot.Ready? <==> DesktopOwned(w.seats[w.loads[l].seat].mod) && w.loads[l].onReady
  {
    ReachableSafe(w);
    var s := w.loads[l].seat;
    assert LoadOk(w, l) && SeatOk(w, s) && Current(w, w.seats[s].mod);
  }

  // -- The desktop's own views can lose state -----------------------------------------------------

  const FIRST: Guest := Guest(None, 0, 0, false, true, 0, None)
  const DRAWN: Guest := Guest(None, 0, 1, true, true, 5, None)
  const SECOND: Guest := Guest(None, 1, 0, false, true, 0, None)

  /** A world with one seat, the desktop's settings view. */
  function OneSeat(slot: Slot, loads: seq<Load>, inFlight: bool, tasting: Option<Hash>): World {
    World(0, map[Settings := 0], {}, None,
          [Seat(Settings, slot, |loads|, if |loads| == 0 then 0 else |loads| - 1, None, inFlight, tasting, tasting, Preserve)], loads)
  }

  lemma Step(w: World, mv: Move, next: World)
    requires Reachable(w) && Formed(w) && Enabled(w, mv) && Apply(w, mv) == next
    ensures Reachable(next)
  {
    ReachableNext(w, mv);
  }

  lemma SettingsMounted()
    ensures Reachable(OneSeat(Loading, [], false, None))
  {
    assert Reaches([], BOOT);
    Step(BOOT, Mount(Settings), OneSeat(Loading, [], false, None));
  }

  lemma SettingsBooted()
    ensures Reachable(OneSeat(Loading, [Load(0, 1, 0, false, Asked)], true, None))
  {
    SettingsMounted();
    Step(OneSeat(Loading, [], false, None), Boot(Settings), OneSeat(Loading, [Load(0, 1, 0, false, Asked)], true, None));
  }

  lemma SettingsLoaded()
    ensures Reachable(OneSeat(Loading, [Load(0, 1, 0, false, Done(Fresh(FIRST)))], true, None))
  {
    SettingsBooted();
    Step(OneSeat(Loading, [Load(0, 1, 0, false, Asked)], true, None), LoadStep(0, Done(Fresh(FIRST))),
         OneSeat(Loading, [Load(0, 1, 0, false, Done(Fresh(FIRST)))], true, None));
  }

  lemma SettingsSeated()
    ensures Reachable(OneSeat(Ready(FIRST), [Load(0, 1, 0, false, Over)], false, None))
  {
    SettingsLoaded();
    Step(OneSeat(Loading, [Load(0, 1, 0, false, Done(Fresh(FIRST)))], true, None), InstallStep(0, true),
         OneSeat(Ready(FIRST), [Load(0, 1, 0, false, Over)], false, None));
  }

  lemma SettingsDrawn()
    ensures Reachable(OneSeat(Ready(DRAWN), [Load(0, 1, 0, false, Over)], false, None))
  {
    SettingsSeated();
    Step(OneSeat(Ready(FIRST), [Load(0, 1, 0, false, Over)], false, None), GuestStep(0, DRAWN),
         OneSeat(Ready(DRAWN), [Load(0, 1, 0, false, Over)], false, None));
  }

  lemma RetasteStarts(seated: Guest, load: Load, hash: Hash)
    requires load.seat == 0
    ensures
      var w := OneSeat(Ready(seated), [load], false, None);
      && Formed(w) && Enabled(w, Retaste(Settings, Some(hash)))
      && Apply(w, Retaste(Settings, Some(hash))) == OneSeat(Ready(seated), [load, Load(0, 2, 0, true, Asked)], true, Some(hash))
  {
    var w := OneSeat(Ready(seated), [load], false, None);
    var next := Apply(w, Retaste(Settings, Some(hash)));
    assert next.loads == [load] + [Load(0, 2, 0, true, Asked)];
    assert next.seats == [next.seats[0]];
  }

  lemma SettingsTasted()
    ensures Reachable(OneSeat(Ready(DRAWN), [Load(0, 1, 0, false, Over), Load(0, 2, 0, true, Asked)], true, Some(7)))
  {
    SettingsDrawn();
    RetasteStarts(DRAWN, Load(0, 1, 0, false, Over), 7);
    ReachableNext(OneSeat(Ready(DRAWN), [Load(0, 1, 0, false, Over)], false, None), Retaste(Settings, Some(7)));
  }

  /** Settings booted, drawn once with a valid tree, then tasted: its load is ready to land. */
  function TastedSettings(): World {
    OneSeat(Ready(DRAWN), [Load(0, 1, 0, false, Over), Load(0, 2, 0, true, Done(Fresh(SECOND)))], true, Some(7))
  }

  lemma TasteLoaded()
    ensures Reachable(TastedSettings())
  {
    SettingsTasted();
    Step(OneSeat(Ready(DRAWN), [Load(0, 1, 0, false, Over), Load(0, 2, 0, true, Asked)], true, Some(7)), LoadStep(1, Done(Fresh(SECOND))),
         TastedSettings());
  }

  lemma TasteLands()
    ensures Formed(TastedSettings()) && Enabled(TastedSettings(), InstallStep(1, true))
    ensures Apply(TastedSettings(), InstallStep(1, true)).seats[0].slot == Ready(SECOND)
  {
  }

  /** A taste of a desktop view replaces a valid, settled view without offering its state to anyone. */
  lemma DesktopTasteDropsState()
    ensures exists w, l: nat, projects, seated ::
              && Reachable(w) && Formed(w) && Enabled(w, InstallStep(l, projects)) && w.seats[w.loads[l].seat].slot == Ready(seated)
              && seated.everValid && !Stays(seated, Apply(w, InstallStep(l, projects)).seats[w.loads[l].seat].slot)
              && !Offered(seated, w.loads[l].phase.loaded)
  {
    TasteLoaded();
    var w := TastedSettings();
    TasteLands();
    assert !Stays(DRAWN, Ready(SECOND)) && !Offered(DRAWN, w.loads[1].phase.loaded);
  }
}
