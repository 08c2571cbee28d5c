/** What every step of the seat machine keeps, and what follows on every run. */
module SeatSafety {
  import opened Values
  import opened Seats

  // -- The invariant ---------------------------------------------------------------------------

  predicate GuestOk(g: Guest) {
    g.everValid ==> g.ticks > 0
  }

  /** One load answers for the seat's generation, and is on its way exactly while the seat says so. */
  predicate SeatOk(w: World, s: nat)
    requires s < |w.seats|
  {
    var seat := w.seats[s];
    && (seat.slot.Ready? ==> GuestOk(seat.slot.guest) && seat.hash == seat.slot.guest.hash)
    && if seat.generation == 0 then !seat.inFlight && !seat.slot.Ready?
       else
         && seat.load < |w.loads| && w.loads[seat.load].seat == s && w.loads[seat.load].generation == seat.generation
         && (seat.inFlight <==> !w.loads[seat.load].phase.Over?)
  }

  /** A desktop view's load goes straight from its file to a fresh view. */
  predicate PhaseOk(load: Load, desktop: bool) {
    && (desktop ==> load.phase.Asked? || load.phase.Over? || (load.phase.Done? && (load.phase.loaded.Fresh? || load.phase.loaded.Unloaded?)))
    && (load.phase.Done? && (load.phase.loaded.Fresh? || load.phase.loaded.Swap?) ==> GuestOk(load.phase.loaded.guest))
    && (load.phase.Done? && load.phase.loaded.Swap? ==> load.phase.loaded.guest.restored == RestoredFrom(load.phase.loaded.offer))
  }

  /** The seated view is still the one captured; at the captured tick it still has the captured state. */
  predicate Held(seat: Seat, alive: nat, ticks: nat, offer: Option<Offer>) {
    && !seat.slot.Loading?
    && (seat.slot.Ready? && seat.slot.guest.alive == alive ==> HeldView(seat.slot.guest, seat.replacement, ticks, offer))
  }

  predicate HeldView(g: Guest, replacement: Replacement, ticks: nat, offer: Option<Offer>) {
    && ticks <= g.ticks
    && (g.ticks == ticks && Preserves(g, replacement) ==> offer.Some? && offer.value.snapshot == g.state)
  }

  /** What the load a seat waits for knows about that seat. */
  predicate Fenced(seat: Seat, load: Load) {
    && (seat.slot.Ready? ==> load.onReady)
    && match load.phase
       case Seen(_, against, replacement) =>
         replacement == seat.replacement && if against.None? then !seat.slot.Ready? else !seat.slot.Loading?
       case Captured(_, alive, ticks, offer) => Held(seat, alive, ticks, offer)
       case Done(Swap(_, alive, ticks, offer)) => Held(seat, alive, ticks, offer)
       case Done(Fresh(_)) => DesktopOwned(seat.mod) || !seat.slot.Ready?
       case Done(Unchanged) => !seat.slot.Loading?
       case _ => true
  }

  predicate LoadOk(w: World, l: nat)
    requires l < |w.loads| && w.loads[l].seat < |w.seats|
  {
    var load := w.loads[l];
    var seat := w.seats[load.seat];
    && 0 < load.generation <= seat.generation && load.asked <= w.rev && PhaseOk(load, DesktopOwned(seat.mod))
    && (load.generation == seat.generation ==> seat.load == l && (load.phase.Over? || Fenced(seat, load)))
  }

  ghost predicate Core(w: World) {
    && Formed(w)
    && (forall s :: 0 <= s < |w.seats| ==> SeatOk(w, s))
    && (forall l :: 0 <= l < |w.loads| ==> LoadOk(w, l))
  }

  /** The connect holding the registry has yet to reach this module. */
  predicate Pending(w: World, m: Module) {
    w.connecting.Some? && (m in w.connecting.value.start || m in w.connecting.value.retire)
  }

  /** A registered seat's load was asked of the connection there is now, and a seat still `Loading` has its load on the way. */
  predicate Current(w: World, m: Module)
    requires m in w.registry && w.registry[m] < |w.seats|
    requires w.seats[w.registry[m]].generation > 0 ==> w.seats[w.registry[m]].load < |w.loads|
  {
    var seat := w.seats[w.registry[m]];
    seat.generation > 0 ==>
      && (!DesktopOwned(m) && !Pending(w, m) ==> w.loads[seat.load].asked == w.rev)
      && (seat.slot.Loading? && !Pending(w, m) ==> !w.loads[seat.load].phase.Over?)
      && (w.loads[seat.load].onReady && !w.loads[seat.load].phase.Over? ==> seat.slot.Ready?)
  }

  ghost predicate Registered(w: World)
    requires Core(w)
  {
    && (forall m :: m in w.registry ==> SeatOk(w, w.registry[m]) && Current(w, m))
    && (w.connecting.Some? ==>
          && w.connecting.value.insert !! w.registry.Keys && w.connecting.value.start !! w.connecting.value.retire
          && w.connecting.value.insert + w.registry.Keys >= w.connecting.value.start)
  }

  ghost predicate Safe(w: World) {
    Core(w) && Registered(w)
  }

  // -- Steps keep the core ------------------------------------------------------------------------

  lemma StartCore(w: World, s: nat, tasting: Option<Hash>, wanted: Option<Hash>, replacement: Replacement)
    requires Core(w) && s < |w.seats|
    ensures Core(Start(SetSeat(w, s, w.seats[s].(tasting := tasting)), s, wanted, replacement))
  {
    var w' := Start(SetSeat(w, s, w.seats[s].(tasting := tasting)), s, wanted, replacement);
    forall i | 0 <= i < |w'.seats|
      ensures SeatOk(w', i)
    {
      assert SeatOk(w, i);
    }
    forall l | 0 <= l < |w'.loads|
      ensures LoadOk(w', l)
    {
      if l < |w.loads| {
        assert LoadOk(w, l);
      }
    }
  }

  lemma InsertCore(w: World, m: Module)
    requires Core(w) && m !in w.registry
    ensures Core(Insert(w, m))
  {
    var w' := Insert(w, m);
    forall i | 0 <= i < |w'.seats|
      ensures SeatOk(w', i)
    {
      if i < |w.seats| {
        assert SeatOk(w, i);
      }
    }
    forall l | 0 <= l < |w'.loads|
      ensures LoadOk(w', l)
    {
      assert LoadOk(w, l);
    }
  }

  lemma SlotFenced(seat: Seat, load: Load, slot: Slot)
    requires Fenced(seat, load) && !slot.Loading? && !slot.Ready?
    ensures Fenced(seat.(slot := slot), load)
  {
  }

  lemma RetireCore(w: World, m: Module)
    requires Core(w)
    ensures Core(Retire(w, m))
  {
    if m in w.registry {
      var w' := Retire(w, m);
      forall i | 0 <= i < |w'.seats|
        ensures SeatOk(w', i)
      {
        assert SeatOk(w, i);
      }
      forall l | 0 <= l < |w'.loads|
        ensures LoadOk(w', l)
      {
        assert LoadOk(w, l);
        if w.loads[l].seat == w.registry[m] && !w.loads[l].phase.Over? && w.loads[l].generation == w.seats[w.registry[m]].generation {
          SlotFenced(w.seats[w.registry[m]], w.loads[l], Empty);
        }
      }
      forall k | k in w'.registry
        ensures w'.seats[w'.registry[k]].mod == k
      {
        assert w.seats[w.registry[k]].mod == k;
      }
    }
  }

  lemma GuestFenced(seat: Seat, load: Load, after: Guest)
    requires Fenced(seat, load) && seat.slot.Ready? && GuestMoves(seat.slot.guest, after)
    ensures Fenced(seat.(slot := Ready(after)), load)
  {
  }

  lemma GuestCore(w: World, s: nat, after: Guest)
    requires Core(w) && s < |w.seats| && w.seats[s].slot.Ready? && GuestMoves(w.seats[s].slot.guest, after)
    ensures Core(SetSeat(w, s, w.seats[s].(slot := Ready(after))))
  {
    var w' := SetSeat(w, s, w.seats[s].(slot := Ready(after)));
    forall i | 0 <= i < |w'.seats|
      ensures SeatOk(w', i)
    {
      assert SeatOk(w, i);
    }
    forall l | 0 <= l < |w'.loads|
      ensures LoadOk(w', l)
    {
      assert LoadOk(w, l);
      if w.loads[l].seat == s && !w.loads[l].phase.Over? && w.loads[l].generation == w.seats[s].generation {
        GuestFenced(w.seats[s], w.loads[l], after);
      }
    }
  }

  lemma TastingCore(w: World, s: nat, tasting: Option<Hash>)
    requires Core(w) && s < |w.seats|
    ensures Core(SetSeat(w, s, w.seats[s].(tasting := tasting)))
  {
    var w' := SetSeat(w, s, w.seats[s].(tasting := tasting));
    forall i | 0 <= i < |w'.seats|
      ensures SeatOk(w', i)
    {
      assert SeatOk(w, i);
    }
    forall l | 0 <= l < |w'.loads|
      ensures LoadOk(w', l)
    {
      assert LoadOk(w, l);
    }
  }

  lemma MoveFenced(l: nat, load: Load, seat: Seat, next: Stage)
    requires Fenced(seat, load) && LoadMoves(l, load, seat, next) && !load.phase.Over?
    requires PhaseOk(load, DesktopOwned(seat.mod))
    ensures Fenced(seat, load.(phase := next))
  {
  }

  lemma MovePhase(l: nat, load: Load, seat: Seat, next: Stage)
    requires LoadMoves(l, load, seat, next) && PhaseOk(load, DesktopOwned(seat.mod))
    ensures PhaseOk(load.(phase := next), DesktopOwned(seat.mod)) && !load.phase.Over? && !next.Over?
  {
  }

  lemma LoadStepCore(w: World, l: nat, next: Stage)
    requires Core(w) && l < |w.loads| && LoadMoves(l, w.loads[l], w.seats[w.loads[l].seat], next)
    ensures Core(SetPhase(w, l, next))
  {
    var w' := SetPhase(w, l, next);
    assert LoadOk(w, l);
    MovePhase(l, w.loads[l], w.seats[w.loads[l].seat], next);
    forall i | 0 <= i < |w'.seats|
      ensures SeatOk(w', i)
    {
      assert SeatOk(w, i);
    }
    forall k | 0 <= k < |w'.loads|
      ensures LoadOk(w', k)
    {
      assert LoadOk(w, k);
      if k == l && w.loads[l].generation == w.seats[w.loads[l].seat].generation {
        MoveFenced(l, w.loads[l], w.seats[w.loads[l].seat], next);
      }
    }
  }

  lemma SettleKeeps(rev: nat, seat: Seat, load: Load, projects: bool)
    requires load.phase.Done? && PhaseOk(load, DesktopOwned(seat.mod)) && (seat.slot.Ready? ==> GuestOk(seat.slot.guest) && seat.hash == seat.slot.guest.hash)
    ensures
      var after := Settle(rev, seat, load, projects);
      && after.mod == seat.mod && after.generation == seat.generation && after.load == seat.load
      && (after.slot.Ready? ==> GuestOk(after.slot.guest) && after.hash == after.slot.guest.hash)
      && if seat.generation == load.generation then !after.inFlight else after == seat
  {
  }

  lemma InstallCore(w: World, l: nat, projects: bool)
    requires Core(w) && l < |w.loads| && w.loads[l].phase.Done?
    ensures Core(Install(w, l, projects))
  {
    var w' := Install(w, l, projects);
    var s := w.loads[l].seat;
    assert LoadOk(w, l) && SeatOk(w, s);
    SettleKeeps(w.rev, w.seats[s], w.loads[l], projects);
    SettleCore(w, w', l, Settle(w.rev, w.seats[s], w.loads[l], projects));
  }

  lemma SettleCore(w: World, w': World, l: nat, after: Seat)
    requires Core(w) && l < |w.loads| && w.loads[l].phase.Done?
    requires w' == SetSeat(SetPhase(w, l, Over), w.loads[l].seat, after)
    requires
      var seat := w.seats[w.loads[l].seat];
      && after.mod == seat.mod && after.generation == seat.generation && after.load == seat.load
      && (after.slot.Ready? ==> GuestOk(after.slot.guest) && after.hash == after.slot.guest.hash)
      && if seat.generation == w.loads[l].generation then !after.inFlight else after == seat
    ensures Core(w')
  {
    assert LoadOk(w, l);
    forall i | 0 <= i < |w'.seats|
      ensures SeatOk(w', i)
    {
      assert SeatOk(w, i);
    }
    forall k | 0 <= k < |w'.loads|
      ensures LoadOk(w', k)
    {
      assert LoadOk(w, k);
    }
    forall m | m in w'.registry
      ensures w'.seats[w'.registry[m]].mod == m
    {
      assert w.seats[w.registry[m]].mod == m;
    }
  }

  // -- Steps keep registered seats current ----------------------------------------------------------

  /** A step that leaves a module's seat, its load and the connection alone leaves it current. */
  lemma CurrentStays(w: World, w': World, m: Module)
    requires Core(w) && Core(w') && m in w.registry && m in w'.registry && w'.registry[m] == w.registry[m]
    requires SeatOk(w, w.registry[m]) && SeatOk(w', w.registry[m]) && Current(w, m)
    requires w'.seats[w.registry[m]] == w.seats[w.registry[m]] && w'.rev == w.rev && (Pending(w, m) ==> Pending(w', m))
    requires SeatOf(w, m).generation > 0 ==> w'.loads[SeatOf(w, m).load] == w.loads[SeatOf(w, m).load]
    ensures Current(w', m)
  {
  }

  lemma OtherSeat(w: World, m: Module, k: Module)
    requires Formed(w) && m in w.registry && k in w.registry && m != k
    ensures w.registry[m] != w.registry[k]
  {
  }

  lemma StartSafe(w: World, m: Module, tasting: Option<Hash>, wanted: Option<Hash>, replacement: Replacement)
    requires Safe(w) && m in w.registry
    ensures Safe(Start(SetSeat(w, w.registry[m], SeatOf(w, m).(tasting := tasting)), w.registry[m], wanted, replacement))
  {
    var s := w.registry[m];
    var w' := Start(SetSeat(w, s, w.seats[s].(tasting := tasting)), s, wanted, replacement);
    StartCore(w, s, tasting, wanted, replacement);
    forall k | k in w'.registry
      ensures SeatOk(w', w'.registry[k]) && Current(w', k)
    {
      assert SeatOk(w', w'.registry[k]);
      if k != m {
        OtherSeat(w, m, k);
        CurrentStays(w, w', k);
      }
    }
  }

  lemma InsertSafe(w: World, m: Module)
    requires Safe(w) && m !in w.registry && (w.connecting.Some? ==> m !in w.connecting.value.insert)
    ensures Safe(Insert(w, m))
  {
    var w' := Insert(w, m);
    InsertCore(w, m);
    forall k | k in w'.registry
      ensures SeatOk(w', w'.registry[k]) && Current(w', k)
    {
      assert SeatOk(w', w'.registry[k]);
      if k != m {
        CurrentStays(w, w', k);
      }
    }
  }

  lemma GuestSafe(w: World, s: nat, after: Guest)
    requires Safe(w) && s < |w.seats| && w.seats[s].slot.Ready? && GuestMoves(w.seats[s].slot.guest, after)
    ensures Safe(SetSeat(w, s, w.seats[s].(slot := Ready(after))))
  {
    var w' := SetSeat(w, s, w.seats[s].(slot := Ready(after)));
    GuestCore(w, s, after);
    forall k | k in w'.registry
      ensures SeatOk(w', w'.registry[k]) && Current(w', k)
    {
      assert SeatOk(w', w'.registry[k]) && Current(w, k);
    }
  }

  lemma UntasteSafe(w: World, m: Module)
    requires Safe(w) && m in w.registry
    ensures Safe(SetSeat(w, w.registry[m], SeatOf(w, m).(tasting := None)))
  {
    var w' := SetSeat(w, w.registry[m], SeatOf(w, m).(tasting := None));
    TastingCore(w, w.registry[m], None);
    forall k | k in w'.registry
      ensures SeatOk(w', w'.registry[k]) && Current(w', k)
    {
      assert SeatOk(w', w'.registry[k]) && Current(w, k);
    }
  }

  lemma LoadStepSafe(w: World, l: nat, next: Stage)
    requires Safe(w) && l < |w.loads| && LoadMoves(l, w.loads[l], w.seats[w.loads[l].seat], next)
    ensures Safe(SetPhase(w, l, next))
  {
    var w' := SetPhase(w, l, next);
    LoadStepCore(w, l, next);
    assert LoadOk(w, l);
    MovePhase(l, w.loads[l], w.seats[w.loads[l].seat], next);
    forall k | k in w'.registry
      ensures SeatOk(w', w'.registry[k]) && Current(w', k)
    {
      assert SeatOk(w', w'.registry[k]) && Current(w, k);
    }
  }

  /** A load landing on a seat no connect has yet to reach never leaves it `Loading`. */
  lemma LandingFillsSlot(w: World, l: nat, projects: bool)
    requires Safe(w) && l < |w.loads| && w.loads[l].phase.Done?
    requires
      var s := w.loads[l].seat;
      && w.seats[s].generation == w.loads[l].generation && w.seats[s].mod in w.registry && w.registry[w.seats[s].mod] == s
      && !Pending(w, w.seats[s].mod)
    ensures !Settle(w.rev, w.seats[w.loads[l].seat], w.loads[l], projects).slot.Loading?
  {
    var s := w.loads[l].seat;
    assert LoadOk(w, l) && SeatOk(w, s);
    assert Current(w, w.seats[s].mod);
  }

  lemma InstallCurrent(w: World, l: nat, projects: bool, k: Module)
    requires Safe(w) && l < |w.loads| && w.loads[l].phase.Done? && k in w.registry
    requires Core(Install(w, l, projects)) && SeatOk(Install(w, l, projects), w.registry[k])
    ensures Current(Install(w, l, projects), k)
  {
    var w' := Install(w, l, projects);
    assert LoadOk(w, l) && SeatOk(w, w.loads[l].seat) && SeatOk(w, w.registry[k]) && Current(w, k);
    SettleKeeps(w.rev, w.seats[w.loads[l].seat], w.loads[l], projects);
    if w.registry[k] == w.loads[l].seat {
      if SeatOf(w, k).generation == w.loads[l].generation && !Pending(w, k) {
        LandingFillsSlot(w, l, projects);
      }
    } else {
      CurrentStays(w, w', k);
    }
  }

  lemma InstallSafe(w: World, l: nat, projects: bool)
    requires Safe(w) && l < |w.loads| && w.loads[l].phase.Done?
    ensures Safe(Install(w, l, projects))
  {
    InstallCore(w, l, projects);
    forall k | k in w.registry
      ensures SeatOk(Install(w, l, projects), w.registry[k]) && Current(Install(w, l, projects), k)
    {
      assert SeatOk(Install(w, l, projects), w.registry[k]);
      InstallCurrent(w, l, projects, k);
    }
  }

  // -- The connect's own steps ----------------------------------------------------------------------

  lemma RewiredCore(w: World, rev: nat, registered: set<Module>, connecting: Option<Connect>)
    requires Core(w) && w.rev <= rev
    ensures Core(w.(rev := rev, registered := registered, connecting := connecting))
  {
    var w' := w.(rev := rev, registered := registered, connecting := connecting);
    forall i | 0 <= i < |w'.seats|
      ensures SeatOk(w', i)
    {
      assert SeatOk(w, i);
    }
    forall l | 0 <= l < |w'.loads|
      ensures LoadOk(w', l)
    {
      assert LoadOk(w, l);
    }
  }

  lemma ListedSafe(w: World, registered: set<Module>)
    requires Safe(w)
    ensures Safe(w.(registered := registered))
  {
    var w' := w.(registered := registered);
    RewiredCore(w, w.rev, registered, w.connecting);
    assert w' == w.(rev := w.rev, registered := registered, connecting := w.connecting);
    forall k | k in w'.registry
      ensures SeatOk(w', w'.registry[k]) && Current(w', k)
    {
      assert SeatOk(w', w'.registry[k]);
      CurrentStays(w, w', k);
    }
  }

  lemma ConnectBeginSafe(w: World)
    requires Safe(w) && Enabled(w, ConnectBegin)
    ensures Safe(Apply(w, ConnectBegin))
  {
    var w' := Apply(w, ConnectBegin);
    RewiredCore(w, w'.rev, w'.registered, w'.connecting);
    assert w' == w.(rev := w'.rev, registered := w'.registered, connecting := w'.connecting);
    forall k | k in w'.registry
      ensures SeatOk(w', w'.registry[k]) && Current(w', k)
    {
      assert SeatOk(w', w'.registry[k]) && Current(w, k) && Pending(w', k);
    }
  }

  lemma ConnectInsertSafe(w: World, m: Module)
    requires Safe(w) && Enabled(w, ConnectInsert(m))
    ensures Safe(Apply(w, ConnectInsert(m)))
  {
    var w' := Apply(w, ConnectInsert(m));
    var w1 := Insert(w, m);
    InsertCore(w, m);
    RewiredCore(w1, w.rev, w.registered, w'.connecting);
    assert w' == w1.(rev := w.rev, registered := w.registered, connecting := w'.connecting);
    forall k | k in w'.registry
      ensures SeatOk(w', w'.registry[k]) && Current(w', k)
    {
      assert SeatOk(w', w'.registry[k]);
      if k != m {
        CurrentStays(w, w', k);
      }
    }
  }

  lemma RetireSafe(w: World, m: Module, registered: set<Module>, connecting: Option<Connect>)
    requires Safe(w)
    requires connecting.None? ==> w.connecting.None?
    requires connecting.Some? ==> w.connecting.Some? && m in w.connecting.value.retire
                                  && connecting.value == w.connecting.value.(retire := w.connecting.value.retire - {m})
    ensures Safe(Retire(w, m).(registered := registered, connecting := connecting))
  {
    var w1 := Retire(w, m);
    var w' := w1.(registered := registered, connecting := connecting);
    RetireCore(w, m);
    RewiredCore(w1, w.rev, registered, connecting);
    assert w' == w1.(rev := w.rev, registered := registered, connecting := connecting);
    forall k | k in w'.registry
      ensures SeatOk(w', w'.registry[k]) && Current(w', k)
    {
      assert SeatOk(w', w'.registry[k]);
      if m in w.registry {
        OtherSeat(w, m, k);
      }
      CurrentStays(w, w', k);
    }
  }

  lemma ConnectOneSafe(w: World, m: Module)
    requires Safe(w) && m in w.registry
    ensures Safe(ConnectOne(w, m)) && ConnectOne(w, m).registry == w.registry && ConnectOne(w, m).connecting == w.connecting
    ensures
      var seat := SeatOf(ConnectOne(w, m), m);
      && seat.generation > 0
      && seat.load < |ConnectOne(w, m).loads|
      && (!DesktopOwned(m) ==> ConnectOne(w, m).loads[seat.load].asked == w.rev)
      && (seat.slot.Loading? ==> !ConnectOne(w, m).loads[seat.load].phase.Over?)
  {
    assert SeatOk(w, w.registry[m]);
    var seat := SeatOf(w, m);
    if !(DesktopOwned(m) && (seat.slot.Ready? || seat.inFlight)) {
      StartSafe(w, m, None, None, Preserve);
    }
  }

  lemma ConnectSeatSafe(w: World, m: Module)
    requires Safe(w) && Enabled(w, ConnectSeat(m))
    ensures Safe(Apply(w, ConnectSeat(m)))
  {
    ConnectOneSafe(w, m);
    var w1 := ConnectOne(w, m);
    var w' := Apply(w, ConnectSeat(m));
    RewiredCore(w1, w1.rev, w1.registered, w'.connecting);
    assert w' == w1.(rev := w1.rev, registered := w1.registered, connecting := w'.connecting);
    forall k | k in w'.registry
      ensures SeatOk(w', w'.registry[k]) && Current(w', k)
    {
      assert SeatOk(w', w'.registry[k]) && Current(w1, k);
      if k != m {
        CurrentStays(w1, w', k);
      }
    }
  }

  lemma ConnectEndSafe(w: World)
    requires Safe(w) && Enabled(w, ConnectEnd)
    ensures Safe(Apply(w, ConnectEnd))
  {
    var w' := Apply(w, ConnectEnd);
    RewiredCore(w, w.rev, w.registered, None);
    assert w' == w.(rev := w.rev, registered := w.registered, connecting := None);
    forall k | k in w'.registry
      ensures SeatOk(w', w'.registry[k]) && Current(w', k)
    {
      assert SeatOk(w', w'.registry[k]);
      CurrentStays(w, w', k);
    }
  }

  // -- Every step, every run -----------------------------------------------------------------------------

  lemma SameTasting(w: World, s: nat)
    requires s < |w.seats|
    ensures SetSeat(w, s, w.seats[s].(tasting := w.seats[s].tasting)) == w
  {
    assert w.seats[s := w.seats[s]] == w.seats;
  }

  lemma StepSafe(w: World, mv: Move)
    requires Safe(w) && Enabled(w, mv)
    ensures Safe(Apply(w, mv))
  {
    match mv
    case ConnectBegin => ConnectBeginSafe(w);
    case ConnectInsert(m) => ConnectInsertSafe(w, m);
    case ConnectRetire(m) => RetireSafe(w, m, w.registered, Apply(w, mv).connecting);
    case ConnectSeat(m) => ConnectSeatSafe(w, m);
    case ConnectEnd => ConnectEndSafe(w);
    case Mount(m) => InsertSafe(w, m);
    case Boot(m) => SameTasting(w, w.registry[m]); StartSafe(w, m, SeatOf(w, m).tasting, None, Preserve);
    case SeatListed(m) =>
      SameTasting(w, w.registry[m]);
      StartSafe(w, m, SeatOf(w, m).tasting, None, Preserve);
      ListedSafe(if SeatOf(w, m).generation > 0 then w else Start(w, w.registry[m], None, Preserve), w.registered + {m});
    case RetireListed(m) => RetireSafe(w, m, w.registered - {m}, None);
    case Retaste(m, hash) => StartSafe(w, m, hash, hash, Preserve);
    case Untaste(m) => UntasteSafe(w, m);
    case Reload(m, hash, replacement) => SameTasting(w, w.registry[m]); StartSafe(w, m, SeatOf(w, m).tasting, hash, replacement);
    case LoadStep(l, next) => LoadStepSafe(w, l, next);
    case InstallStep(l, projects) => InstallSafe(w, l, projects);
    case GuestStep(s, after) => GuestSafe(w, s, after);
  }

  /** A run of the app from its start. */
  ghost predicate Reaches(moves: seq<Move>, w: World)
    decreases |moves|
  {
    if moves == [] then w == BOOT
    else exists before :: Reaches(moves[..|moves| - 1], before) && Formed(before) && Enabled(before, moves[|moves| - 1])
                          && w == Apply(before, moves[|moves| - 1])
  }

  lemma {:induction false} RunSafe(moves: seq<Move>, w: World)
    requires Reaches(moves, w)
    ensures Safe(w)
    decreases |moves|
  {
    if moves != [] {
      var before :| Reaches(moves[..|moves| - 1], before) && Formed(before) && Enabled(before, moves[|moves| - 1])
                    && w == Apply(before, moves[|moves| - 1]);
      RunSafe(moves[..|moves| - 1], before);
      StepSafe(before, moves[|moves| - 1]);
    }
  }

  ghost predicate Reachable(w: World) {
    exists moves :: Reaches(moves, w)
  }

  lemma ReachableSafe(w: World)
    requires Reachable(w)
    ensures Safe(w)
  {
    var moves :| Reaches(moves, w);
    RunSafe(moves, w);
  }

  lemma ReachableNext(w: World, mv: Move)
    requires Reachable(w) && Formed(w) && Enabled(w, mv)
    ensures Reachable(Apply(w, mv))
  {
    var moves :| Reaches(moves, w);
    assert (moves + [mv])[..|moves|] == moves;
    assert Reaches(moves + [mv], Apply(w, mv));
  }
}
