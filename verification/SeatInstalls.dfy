/** What an admitted load does to its seat, what starts one, and that a new deployment can reach the screen. */
module SeatInstalls {
  import opened Values
  import opened Seats
  import opened SeatSafety
  import opened SeatRuns

  // -- A view's identity is the load that made it -------------------------------------------------

  predicate SeatIdentified(seat: Seat, loads: seq<Load>) {
    seat.slot.Ready? ==> seat.slot.guest.alive < |loads| && loads[seat.slot.guest.alive].phase.Over?
  }

  predicate LoadIdentified(l: nat, phase: Stage) {
    phase.Done? && (phase.loaded.Fresh? || phase.loaded.Swap?) ==> phase.loaded.guest.alive == l
  }

  predicate Identified(seats: seq<Seat>, loads: seq<Load>) {
    && (forall s :: 0 <= s < |seats| ==> SeatIdentified(seats[s], loads))
    && (forall l :: 0 <= l < |loads| ==> LoadIdentified(l, loads[l].phase))
  }

  lemma StartIdentified(w: World, s: nat, tasting: Option<Hash>, wanted: Option<Hash>, replacement: Replacement)
    requires Identified(w.seats, w.loads) && s < |w.seats|
    ensures
      var w' := Start(SetSeat(w, s, w.seats[s].(tasting := tasting)), s, wanted, replacement);
      Identified(w'.seats, w'.loads)
  {
  }

  lemma StepIdentified(w: World, mv: Move)
    requires Formed(w) && Enabled(w, mv) && Identified(w.seats, w.loads)
    ensures Identified(Apply(w, mv).seats, Apply(w, mv).loads)
  {
    match mv
    case ConnectSeat(m) => StartIdentified(w, w.registry[m], None, None, Preserve);
    case Boot(m) => SameTasting(w, w.registry[m]); StartIdentified(w, w.registry[m], SeatOf(w, m).tasting, None, Preserve);
    case SeatListed(m) => SameTasting(w, w.registry[m]); StartIdentified(w, w.registry[m], SeatOf(w, m).tasting, None, Preserve);
    case Retaste(m, hash) => StartIdentified(w, w.registry[m], hash, hash, Preserve);
    case Reload(m, hash, replacement) => SameTasting(w, w.registry[m]); StartIdentified(w, w.registry[m], SeatOf(w, m).tasting, hash, replacement);
    case _ =>
  }

  lemma {:induction false} RunIdentified(moves: seq<Move>, w: World)
    requires Reaches(moves, w)
    ensures Identified(w.seats, w.loads)
  {
    if moves != [] {
      var before :| Reaches(moves[..|moves| - 1], before) && Formed(before) && Enabled(before, moves[|moves| - 1])
                    && w == Apply(before, moves[|moves| - 1]);
      RunIdentified(moves[..|moves| - 1], before);
      StepIdentified(before, moves[|moves| - 1]);
    }
  }

  // -- What an admitted load does --------------------------------------------------------------------

  /** A replacement lands exactly on the view it was prepared against: unchanged and with nothing pending since it was
      captured, or never valid where state need not be kept. Otherwise the seat shows what it showed. */
  lemma ReplacementLandsIff(w: World, l: nat, projects: bool)
    requires Reachable(w) && Formed(w) && Enabled(w, InstallStep(l, projects)) && Admitted(w, l, w.loads[l].seat) && w.loads[l].phase.loaded.Swap?
    ensures
      var loaded, before, after := w.loads[l].phase.loaded, w.seats[w.loads[l].seat], Apply(w, InstallStep(l, projects)).seats[w.loads[l].seat];
      && ((after.slot == Ready(loaded.guest) && after.hash == loaded.guest.hash) <==>
            && projects && before.slot.Ready? && before.slot.guest.alive == loaded.alive
            && if before.replacement.Preserve? then before.slot.guest.ticks == loaded.ticks && before.slot.guest.settled
               else !before.slot.guest.everValid)
      && (after.slot != Ready(loaded.guest) ==> after.slot == before.slot && after.hash == before.hash)
      && !after.inFlight
  {
    var moves :| Reaches(moves, w);
    RunIdentified(moves, w);
    assert LoadIdentified(l, w.loads[l].phase) && SeatIdentified(w.seats[w.loads[l].seat], w.loads);
  }

  /** Any other load shows what it brought: a view, the word that there is none, or a failure where nothing is shown. */
  lemma LoadShows(w: World, l: nat, projects: bool)
    requires Formed(w) && Enabled(w, InstallStep(l, projects)) && Admitted(w, l, w.loads[l].seat)
    ensures
      var loaded, before, after := w.loads[l].phase.loaded, w.seats[w.loads[l].seat], Apply(w, InstallStep(l, projects)).seats[w.loads[l].seat];
      && (loaded.Fresh? ==> after.slot == Ready(loaded.guest) && after.hash == loaded.guest.hash)
      && (loaded.NoView? ==> after.slot == Empty && after.hash == Some(loaded.hash))
      && (loaded.Unchanged? ==> after.slot == before.slot && after.hash == before.hash)
      && (loaded.Unloaded? ==> after.hash == before.hash && if before.slot.Ready? then after.slot == before.slot else after.slot.Failed?)
      && !after.inFlight
  {
  }

  /** The load a seat waits for found, or will find, that the seat tastes nothing. */
  predicate Untasted(seat: Seat, load: Load) {
    load.generation == seat.generation && (load.phase == Tasted(None) || (load.phase.Done? && load.phase.loaded.NoView?)) ==> seat.tasting.None?
  }

  predicate TastesKept(seats: seq<Seat>, loads: seq<Load>) {
    forall l :: 0 <= l < |loads| && loads[l].seat < |seats| ==> Untasted(seats[loads[l].seat], loads[l])
  }

  lemma StartKeepsTastes(w: World, s: nat, tasting: Option<Hash>, wanted: Option<Hash>, replacement: Replacement)
    requires Core(w) && s < |w.seats| && TastesKept(w.seats, w.loads)
    ensures
      var w' := Start(SetSeat(w, s, w.seats[s].(tasting := tasting)), s, wanted, replacement);
      TastesKept(w'.seats, w'.loads)
  {
    var w' := Start(SetSeat(w, s, w.seats[s].(tasting := tasting)), s, wanted, replacement);
    forall l | 0 <= l < |w'.loads| && w'.loads[l].seat < |w'.seats|
      ensures Untasted(w'.seats[w'.loads[l].seat], w'.loads[l])
    {
      if l < |w.loads| {
        assert LoadOk(w, l) && Untasted(w.seats[w.loads[l].seat], w.loads[l]);
      }
    }
  }

  lemma InsertKeepsTastes(w: World, m: Module)
    requires Core(w) && TastesKept(w.seats, w.loads)
    ensures TastesKept(Insert(w, m).seats, w.loads)
  {
    forall l | 0 <= l < |w.loads| && w.loads[l].seat < |Insert(w, m).seats|
      ensures Untasted(Insert(w, m).seats[w.loads[l].seat], w.loads[l])
    {
      assert LoadOk(w, l);
    }
  }

  lemma StepKeepsTastes(w: World, mv: Move)
    requires Core(w) && Enabled(w, mv) && TastesKept(w.seats, w.loads)
    ensures TastesKept(Apply(w, mv).seats, Apply(w, mv).loads)
  {
    match mv
    case ConnectInsert(m) => InsertKeepsTastes(w, m);
    case Mount(m) => InsertKeepsTastes(w, m);
    case ConnectSeat(m) => StartKeepsTastes(w, w.registry[m], None, None, Preserve);
    case Boot(m) => SameTasting(w, w.registry[m]); StartKeepsTastes(w, w.registry[m], SeatOf(w, m).tasting, None, Preserve);
    case SeatListed(m) => SameTasting(w, w.registry[m]); StartKeepsTastes(w, w.registry[m], SeatOf(w, m).tasting, None, Preserve);
    case Retaste(m, hash) => StartKeepsTastes(w, w.registry[m], hash, hash, Preserve);
    case Reload(m, hash, replacement) => SameTasting(w, w.registry[m]); StartKeepsTastes(w, w.registry[m], SeatOf(w, m).tasting, hash, replacement);
    case _ =>
  }

  lemma {:induction false} RunKeepsTastes(moves: seq<Move>, w: World)
    requires Reaches(moves, w)
    ensures TastesKept(w.seats, w.loads)
  {
    if moves != [] {
      var before :| Reaches(moves[..|moves| - 1], before) && Formed(before) && Enabled(before, moves[|moves| - 1])
                    && w == Apply(before, moves[|moves| - 1]);
      RunKeepsTastes(moves[..|moves| - 1], before);
      RunSafe(moves[..|moves| - 1], before);
      StepKeepsTastes(before, moves[|moves| - 1]);
    }
  }

  /** The node's word that a module has no view takes a view off the screen only while the seat tastes nothing. */
  lemma TastedIsNeverRemoved(w: World, l: nat)
    requires Reachable(w) && Formed(w) && l < |w.loads| && Admitted(w, l, w.loads[l].seat) && w.loads[l].phase.loaded.NoView?
    ensures w.seats[w.loads[l].seat].tasting.None?
  {
    var moves :| Reaches(moves, w);
    RunKeepsTastes(moves, w);
    assert Untasted(w.seats[w.loads[l].seat], w.loads[l]);
  }

  // -- What starts one --------------------------------------------------------------------------------

  /** The moves that ask for a seat's view anew. */
  predicate AsksFor(w: World, mv: Move, s: nat)
    requires Formed(w)
  {
    match mv
    case ConnectSeat(m) =>
      m in w.registry && w.registry[m] == s && !(DesktopOwned(m) && (SeatOf(w, m).slot.Ready? || SeatOf(w, m).inFlight))
    case Boot(m) => m in w.registry && w.registry[m] == s
    case SeatListed(m) => m in w.registry && w.registry[m] == s && SeatOf(w, m).generation == 0
    case Retaste(m, _) => m in w.registry && w.registry[m] == s
    case Reload(m, _, _) => m in w.registry && w.registry[m] == s
    case _ => false
  }

  /** What the seat is after: a taste, the deployment a block named, or whatever is active. */
  function After(mv: Move): Option<Hash> {
    if mv.Retaste? || mv.Reload? then mv.hash else None
  }

  /** A seat's generation goes up exactly when its view is asked for, and then one new load is on its way for it, asked of
      the connection as it is. */
  lemma AskingStartsLoad(w: World, mv: Move, s: nat)
    requires Formed(w) && Enabled(w, mv) && s < |w.seats|
    ensures s < |Apply(w, mv).seats|
    ensures
      var seat, after := w.seats[s], Apply(w, mv).seats[s];
      if !AsksFor(w, mv, s) then after.generation == seat.generation && after.load == seat.load
      else
        && after.generation == seat.generation + 1 && after.load == |w.loads| && after.inFlight && after.wanted == After(mv)
        && (after.replacement.RecoverNeverValid? <==> mv.Reload? && mv.replacement.RecoverNeverValid?)
        && Apply(w, mv).loads == w.loads + [Load(s, after.generation, w.rev, seat.slot.Ready?, Asked)]
  {
  }

  /** A seat is after the taste last set for it, until that is cleared or a connect passes. */
  lemma TastesAreSet(w: World, mv: Move, s: nat)
    requires Formed(w) && Enabled(w, mv) && s < |w.seats|
    ensures s < |Apply(w, mv).seats|
    ensures Apply(w, mv).seats[s].tasting ==
            if mv.Retaste? && w.registry[mv.m] == s then mv.hash
            else if mv.Untaste? && w.registry[mv.m] == s then None
            else if mv.ConnectSeat? && AsksFor(w, mv, s) then None
            else w.seats[s].tasting
  {
  }

  /** Retiring takes the module off the registry and its view off the screen. */
  lemma RetiredIsGone(w: World, mv: Move)
    requires Formed(w) && Enabled(w, mv) && (mv.ConnectRetire? || mv.RetireListed?)
    ensures mv.m !in Apply(w, mv).registry && (forall m :: m in w.registry && m != mv.m ==> m in Apply(w, mv).registry)
    ensures mv.m in w.registry ==> Apply(w, mv).seats[w.registry[mv.m]].slot.Empty?
  {
  }

  /** Which modules have a seat, and which of them the node's registry listed, after any move. A connect forgets what was
      listed, plans to retire exactly that, to seat every module of its own that has no seat, and to start all the rest. */
  lemma RegistryMoves(w: World, mv: Move)
    requires Formed(w) && Enabled(w, mv)
    ensures
      var after := Apply(w, mv);
      && after.registry.Keys ==
         (if mv.ConnectInsert? || mv.Mount? then w.registry.Keys + {mv.m}
          else if mv.ConnectRetire? || mv.RetireListed? then w.registry.Keys - {mv.m} else w.registry.Keys)
      && (forall m :: m in w.registry && m in after.registry && !mv.ConnectInsert? ==> after.registry[m] == w.registry[m])
      && ((mv.ConnectInsert? || mv.Mount?) ==> after.registry[mv.m] == |w.seats| && after.seats == w.seats + [NewSeat(mv.m)])
      && after.registered ==
         (if mv.ConnectBegin? then {} else if mv.SeatListed? then w.registered + {mv.m}
          else if mv.RetireListed? then w.registered - {mv.m} else w.registered)
      && after.rev == (if mv.ConnectBegin? then w.rev + 1 else w.rev)
      && (mv.ConnectBegin? ==>
            && after.connecting.Some? && after.connecting.value.retire == w.registered
            && after.connecting.value.insert == MODULE_OWNED - w.registry.Keys
            && after.connecting.value.start == w.registry.Keys + MODULE_OWNED - w.registered)
  {
  }

  // -- A new deployment can reach the screen ------------------------------------------------------------

  /** Some moves in a row lead from one world to the other. */
  ghost predicate Leads(w: World, moves: seq<Move>, w': World)
    decreases |moves|
  {
    if moves == [] then w' == w
    else Formed(w) && Enabled(w, moves[0]) && Leads(Apply(w, moves[0]), moves[1..], w')
  }

  lemma LeadsOn(w: World, mv: Move, moves: seq<Move>, w': World)
    requires Formed(w) && Enabled(w, mv) && Leads(Apply(w, mv), moves, w')
    ensures Leads(w, [mv] + moves, w')
  {
    assert ([mv] + moves)[1..] == moves;
  }

  /** The reload of one seat, its load at some stage. */
  function Reloading(w: World, s: nat, wanted: Hash, replacement: Replacement, phase: Stage): World
    requires s < |w.seats|
  {
    SetPhase(Start(w, s, Some(wanted), replacement), |w.loads|, phase)
  }

  lemma StageMoves(w: World, s: nat, wanted: Hash, replacement: Replacement, a: Stage, b: Stage, moves: seq<Move>, w': World)
    requires Formed(w) && s < |w.seats|
    requires
      var at := Reloading(w, s, wanted, replacement, a);
      LoadMoves(|w.loads|, at.loads[|w.loads|], at.seats[s], b)
    requires Leads(Reloading(w, s, wanted, replacement, b), moves, w')
    ensures Leads(Reloading(w, s, wanted, replacement, a), [LoadStep(|w.loads|, b)] + moves, w')
  {
    var at, l := Reloading(w, s, wanted, replacement, a), |w.loads|;
    assert Formed(at) && Enabled(at, LoadStep(l, b));
    assert Apply(at, LoadStep(l, b)).loads == Reloading(w, s, wanted, replacement, b).loads;
    LeadsOn(at, LoadStep(l, b), moves, w');
  }

  /** What a replacement of the seated view is offered: its state, unless it never ticked or was never valid. */
  function OfferOf(seated: Guest, replacement: Replacement): Option<Offer> {
    if seated.ticks > 0 && replacement.Preserve? then Some(Offer(seated.state, true)) else None
  }

  function Prepared(seated: Guest, replacement: Replacement, g: Guest): Stage {
    Done(Swap(g, seated.alive, seated.ticks, OfferOf(seated, replacement)))
  }

  /** A view that may be replaced so: settled, or never valid where that is allowed. */
  predicate MayReplace(seated: Guest, replacement: Replacement) {
    if replacement.Preserve? then seated.settled else !seated.everValid
  }

  /** A view of the wanted deployment, made by the next load and started from what it is offered. */
  predicate Replaces(w: World, seated: Guest, wanted: Hash, replacement: Replacement, g: Guest) {
    && g.hash == Some(wanted) && g.alive == |w.loads| && g.ticks > 0
    && g.restored == if seated.ticks > 0 && replacement.Preserve? then Some(seated.state) else None
  }

  lemma PreparedLands(w: World, s: nat, wanted: Hash, replacement: Replacement, seated: Guest, g: Guest)
    requires Formed(w) && s < |w.seats| && w.seats[s].slot == Ready(seated) && MayReplace(seated, replacement)
    ensures
      var at, install := Reloading(w, s, wanted, replacement, Prepared(seated, replacement, g)), InstallStep(|w.loads|, true);
      && Formed(at) && Enabled(at, install)
      && Apply(at, install).registry == w.registry && |Apply(at, install).seats| == |w.seats|
      && Apply(at, install).seats[s].slot == Ready(g) && Apply(at, install).seats[s].hash == g.hash
  {
  }

  lemma StagesLead(w: World, s: nat, wanted: Hash, replacement: Replacement, seated: Guest, g: Guest, moves: seq<Move>, w': World) returns (all: seq<Move>)
    requires Formed(w) && s < |w.seats| && !DesktopOwned(w.seats[s].mod) && w.rev > 0
    requires w.seats[s].slot == Ready(seated) && MayReplace(seated, replacement) && seated.hash != Some(wanted)
    requires Replaces(w, seated, wanted, replacement, g)
    requires Leads(Reloading(w, s, wanted, replacement, Prepared(seated, replacement, g)), moves, w')
    ensures Leads(Reloading(w, s, wanted, replacement, Asked), all, w')
  {
    var l := |w.loads|;
    var captured := Captured(wanted, seated.alive, seated.ticks, OfferOf(seated, replacement));
    var seen := Seen(wanted, Some(seated.alive), replacement);
    var tasted := Tasted(w.seats[s].tasting);
    StageMoves(w, s, wanted, replacement, captured, Prepared(seated, replacement, g), moves, w');
    all := [LoadStep(l, Prepared(seated, replacement, g))] + moves;
    StageMoves(w, s, wanted, replacement, seen, captured, all, w');
    all := [LoadStep(l, captured)] + all;
    StageMoves(w, s, wanted, replacement, Resolved(wanted), seen, all, w');
    all := [LoadStep(l, seen)] + all;
    StageMoves(w, s, wanted, replacement, tasted, Resolved(wanted), all, w');
    all := [LoadStep(l, Resolved(wanted))] + all;
    StageMoves(w, s, wanted, replacement, Asked, tasted, all, w');
    all := [LoadStep(l, tasted)] + all;
  }

  lemma ReloadStarts(w: World, m: Module, wanted: Hash, replacement: Replacement)
    requires Formed(w) && Enabled(w, Reload(m, Some(wanted), replacement))
    ensures Apply(w, Reload(m, Some(wanted), replacement)) == Reloading(w, w.registry[m], wanted, replacement, Asked)
  {
    var after := Reloading(w, w.registry[m], wanted, replacement, Asked);
    assert Apply(w, Reload(m, Some(wanted), replacement)).loads == after.loads;
  }

  lemma ReloadingLands(w: World, s: nat, wanted: Hash, replacement: Replacement, seated: Guest, g: Guest) returns (moves: seq<Move>, w': World)
    requires Formed(w) && s < |w.seats| && !DesktopOwned(w.seats[s].mod) && w.rev > 0
    requires w.seats[s].slot == Ready(seated) && MayReplace(seated, replacement) && seated.hash != Some(wanted)
    requires Replaces(w, seated, wanted, replacement, g)
    ensures Leads(Reloading(w, s, wanted, replacement, Asked), moves, w')
    ensures w'.registry == w.registry && |w'.seats| == |w.seats| && w'.seats[s].slot == Ready(g) && w'.seats[s].hash == Some(wanted)
  {
    var at, install := Reloading(w, s, wanted, replacement, Prepared(seated, replacement, g)), InstallStep(|w.loads|, true);
    PreparedLands(w, s, wanted, replacement, seated, g);
    w' := Apply(at, install);
    assert Leads(w', [], w');
    LeadsOn(at, install, [], w');
    moves := StagesLead(w, s, wanted, replacement, seated, g, [install] + [], w');
  }

  lemma ReloadIsForOthers(w: World, m: Module, wanted: Hash, replacement: Replacement, seated: Guest)
    requires Reachable(w) && Formed(w) && Enabled(w, Reload(m, Some(wanted), replacement)) && SeatOf(w, m).slot == Ready(seated)
    ensures seated.hash != Some(wanted) && !DesktopOwned(SeatOf(w, m).mod)
    ensures seated.ticks > 0 ==> MayReplace(seated, replacement)
  {
    ReachableSafe(w);
    assert SeatOk(w, w.registry[m]);
  }

  /** A block that names a deployment a node view does not show can put it in the view's seat: started from exactly the
      state the view held, or without any where the view never ticked or was never valid. */
  lemma DeploymentCanLand(w: World, m: Module, wanted: Hash, replacement: Replacement, seated: Guest, g: Guest) returns (moves: seq<Move>, w': World)
    requires Reachable(w) && Formed(w) && w.rev > 0 && Enabled(w, Reload(m, Some(wanted), replacement))
    requires SeatOf(w, m).slot == Ready(seated) && (seated.ticks == 0 ==> seated.settled) && Replaces(w, seated, wanted, replacement, g)
    ensures Leads(w, moves, w')
    ensures w'.registry == w.registry && |w'.seats| == |w.seats|
    ensures w'.seats[w.registry[m]].slot == Ready(g) && w'.seats[w.registry[m]].hash == Some(wanted)
  {
    ReloadIsForOthers(w, m, wanted, replacement, seated);
    moves, w' := ReloadingLands(w, w.registry[m], wanted, replacement, seated, g);
    ReloadStarts(w, m, wanted, replacement);
    LeadsOn(w, Reload(m, Some(wanted), replacement), moves, w');
    moves := [Reload(m, Some(wanted), replacement)] + moves;
  }
}
