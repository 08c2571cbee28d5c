/** The seats of the app's module views. Connects, blocks and tastes start loads on their own
    threads; each lock section of the source is one step here, so a run interleaves them freely. */
module Seats {
  import opened Values

  datatype Module =
    | Governance | Files | Pages | Chat | Forge | Inbox
    | Members | Agents | Node | Explorer | Settings | Palette
    | Listed(id: string)

  const MODULE_OWNED: set<Module> := {Governance, Files, Pages, Chat, Forge, Inbox}

  predicate DesktopOwned(m: Module) {
    m.Members? || m.Agents? || m.Node? || m.Explorer? || m.Settings? || m.Palette?
  }

  type Hash = nat

  /** A running view: the load that made it is its identity, `state` what a snapshot of it would carry, and
      `restored` the snapshot it was started from, if it was not initialised. */
  datatype Guest = Guest(hash: Option<Hash>, alive: nat, ticks: nat, everValid: bool, settled: bool, state: nat, restored: Option<nat>)

  datatype Slot = Loading | Ready(guest: Guest) | Empty | Failed

  datatype Replacement = Preserve | RecoverNeverValid

  datatype Seat = Seat(
    mod: Module, slot: Slot, generation: nat, load: nat, hash: Option<Hash>, inFlight: bool,
    wanted: Option<Hash>, tasting: Option<Hash>, replacement: Replacement)

  /** A snapshot handed to a candidate, and whether its restore carried it or refused it. */
  datatype Offer = Offer(snapshot: nat, carried: bool)

  datatype Loaded =
    | Fresh(guest: Guest) | Unchanged | NoView(hash: Hash)
    | Swap(guest: Guest, alive: nat, ticks: nat, offer: Option<Offer>) | Unloaded

  /** Where a load stands between the seat's lock sections it goes through. */
  datatype Stage =
    | Asked | Tasted(tasting: Option<Hash>) | Resolved(hash: Hash)
    | Seen(hash: Hash, against: Option<nat>, replacement: Replacement)
    | Captured(hash: Hash, alive: nat, ticks: nat, offer: Option<Offer>)
    | Done(loaded: Loaded) | Over

  datatype Load = Load(seat: nat, generation: nat, asked: nat, onReady: bool, phase: Stage)

  /** A connect holding the registry: seats still to insert, to retire and to restart. */
  datatype Connect = Connect(insert: set<Module>, retire: set<Module>, start: set<Module>)

  datatype World = World(
    rev: nat, registry: map<Module, nat>, registered: set<Module>, connecting: Option<Connect>,
    seats: seq<Seat>, loads: seq<Load>)

  const BOOT: World := World(0, map[], {}, None, [], [])

  function NewSeat(m: Module): Seat {
    Seat(m, Loading, 0, 0, None, false, None, None, Preserve)
  }

  function SetSeat(w: World, s: nat, seat: Seat): World
    requires s < |w.seats|
  {
    w.(seats := w.seats[s := seat])
  }

  function SetPhase(w: World, l: nat, phase: Stage): World
    requires l < |w.loads|
  {
    w.(loads := w.loads[l := w.loads[l].(phase := phase)])
  }

  /** Open the seat's next generation and spawn its load, asked of the connection as it is. */
  function Start(w: World, s: nat, wanted: Option<Hash>, replacement: Replacement): World
    requires s < |w.seats|
  {
    var seat := w.seats[s];
    w.(
    seats := w.seats[s := seat.(generation := seat.generation + 1, load := |w.loads|, inFlight := true, wanted := wanted, replacement := replacement)],
    loads := w.loads + [Load(s, seat.generation + 1, w.rev, seat.slot.Ready?, Asked)])
  }

  function Insert(w: World, m: Module): World {
    w.(registry := w.registry[m := |w.seats|], seats := w.seats + [NewSeat(m)])
  }

  /** The seat leaves the registry and drops what it showed; loads may still hold it. */
  function Retire(w: World, m: Module): World
    requires m in w.registry ==> w.registry[m] < |w.seats|
  {
    if m in w.registry
    then SetSeat(w, w.registry[m], w.seats[w.registry[m]].(slot := Empty)).(registry := w.registry - {m})
    else w
  }

  // -- The steps of a load ------------------------------------------------------------------

  /** Everything a load may turn into outside its own install, reading the seat as it is now. */
  predicate LoadMoves(l: nat, load: Load, seat: Seat, next: Stage) {
    match load.phase
    case Asked =>
      if DesktopOwned(seat.mod) then next == Done(Unloaded) || (next.Done? && FreshlyMade(l, next.loaded))
      else if load.asked == 0 then next == Done(Unloaded)
      else next == Tasted(seat.tasting)
    case Tasted(tasting) =>
      next == Done(Unloaded) || next.Resolved? || (tasting.None? && next.Done? && next.loaded.NoView?)
    case Resolved(hash) =>
      if seat.slot.Ready? && seat.slot.guest.hash == Some(hash) then next == Done(Unchanged)
      else next == Seen(hash, if seat.slot.Ready? then Some(seat.slot.guest.alive) else None, seat.replacement)
    case Seen(hash, against, replacement) =>
      || next == Done(Unloaded)
      || (against.None? && next.Done? && FreshlyMade(l, next.loaded) && next.loaded.guest.hash == Some(hash))
      || (against.Some? && Captures(seat, hash, against.value, replacement, next))
    case Captured(hash, alive, ticks, offer) =>
      || next == Done(Unloaded)
      || (next.Done? && next.loaded.Swap? && next.loaded == Swap(next.loaded.guest, alive, ticks, offer)
          && next.loaded.guest.hash == Some(hash) && next.loaded.guest.alive == l && next.loaded.guest.ticks > 0
          && next.loaded.guest.restored == RestoredFrom(offer))
    case Done(_) => false
    case Over => false
  }

  /** A view instantiated and initialised, never yet ticked. */
  predicate FreshlyMade(l: nat, loaded: Loaded) {
    loaded.Fresh? && loaded.guest.alive == l && loaded.guest.ticks == 0 && !loaded.guest.everValid && loaded.guest.restored.None?
  }

  /** A candidate starts from the snapshot it was offered; one that refuses it, or is offered none, is initialised. */
  function RestoredFrom(offer: Option<Offer>): Option<nat> {
    if offer.Some? && offer.value.carried then Some(offer.value.snapshot) else None
  }

  /** The seat's own view is captured under its lock: its state at this tick, unless it never
      ticked or the replacement may start without state; pending work refuses the capture. */
  predicate Captures(seat: Seat, hash: Hash, alive: nat, replacement: Replacement, next: Stage) {
    && seat.slot.Ready? && seat.slot.guest.alive == alive
    && (Preserves(seat.slot.guest, replacement) ==> seat.slot.guest.settled)
    && next.Captured? && next.hash == hash && next.alive == alive && next.ticks == seat.slot.guest.ticks
    && if Preserves(seat.slot.guest, replacement) then next.offer.Some? && next.offer.value.snapshot == seat.slot.guest.state else next.offer.None?
  }

  predicate Preserves(seated: Guest, replacement: Replacement) {
    seated.ticks > 0 && replacement.Preserve?
  }

  // -- Installing ---------------------------------------------------------------------------------

  predicate Eligible(seated: Guest, replacement: Replacement, ticks: nat) {
    match replacement
    case Preserve => seated.ticks == ticks && seated.settled
    case RecoverNeverValid => !seated.everValid
  }

  /** What a load that came back does to a seat that still waits for it. A replacement also needs the text members typed to
      carry over to it. */
  function Landed(seat: Seat, loaded: Loaded, projects: bool): Seat {
    match loaded
    case Fresh(guest) => seat.(hash := guest.hash, slot := Ready(guest))
    case Unchanged => seat
    case NoView(hash) => seat.(hash := Some(hash), slot := Empty)
    case Swap(guest, alive, ticks, _) =>
      if seat.slot.Ready? && seat.slot.guest.alive == alive && Eligible(seat.slot.guest, seat.replacement, ticks) && projects
      then seat.(hash := guest.hash, slot := Ready(guest))
      else seat
    case Unloaded => if seat.slot.Ready? then seat else seat.(slot := Failed)
  }

  /** A load lands only under the generation the seat waits for and, for a node's view, on the connection it was asked of. */
  function Settle(rev: nat, seat: Seat, load: Load, projects: bool): Seat
    requires load.phase.Done?
  {
    if seat.generation != load.generation then seat
    else if !DesktopOwned(seat.mod) && rev != load.asked then seat.(inFlight := false)
    else Landed(seat.(inFlight := false), load.phase.loaded, projects)
  }

  function Install(w: World, l: nat, projects: bool): World
    requires l < |w.loads| && w.loads[l].phase.Done? && w.loads[l].seat < |w.seats|
  {
    SetSeat(SetPhase(w, l, Over), w.loads[l].seat, Settle(w.rev, w.seats[w.loads[l].seat], w.loads[l], projects))
  }

  // -- Steps ---------------------------------------------------------------------------------------

  datatype Move =
    | ConnectBegin | ConnectInsert(m: Module) | ConnectRetire(m: Module) | ConnectSeat(m: Module) | ConnectEnd
    | Mount(m: Module) | Boot(m: Module) | SeatListed(m: Module) | RetireListed(m: Module)
    | Retaste(m: Module, hash: Option<Hash>) | Untaste(m: Module)
    | Reload(m: Module, hash: Option<Hash>, replacement: Replacement)
    | LoadStep(l: nat, next: Stage) | InstallStep(l: nat, projects: bool) | GuestStep(s: nat, after: Guest)

  /** A block's reload waits while the seated view has pending work, unless it may recover without state. */
  predicate Replaceable(slot: Slot, replacement: Replacement) {
    match replacement
    case Preserve => slot.Ready? ==> slot.guest.ticks == 0 || (slot.guest.everValid && slot.guest.settled)
    case RecoverNeverValid => slot.Ready? && slot.guest.ticks > 0 && !slot.guest.everValid
  }

  /** A block reloads a seat only for a deployment it neither shows nor already waits for. */
  predicate Reloads(seat: Seat, hash: Option<Hash>) {
    hash != seat.hash && !(seat.inFlight && (seat.wanted.None? || seat.wanted == hash))
  }

  /** A redraw ticks the view; anything else only changes what is pending. */
  predicate GuestMoves(before: Guest, after: Guest) {
    && after.hash == before.hash && after.alive == before.alive && after.restored == before.restored && (before.everValid ==> after.everValid)
    && (after.ticks == before.ticks + 1
        || (after.ticks == before.ticks && after.state == before.state && after.everValid == before.everValid))
  }

  predicate Enabled(w: World, mv: Move) {
    match mv
    case ConnectBegin => w.connecting.None?
    case ConnectInsert(m) => w.connecting.Some? && m in w.connecting.value.insert
    case ConnectRetire(m) => w.connecting.Some? && w.connecting.value.insert == {} && m in w.connecting.value.retire
    case ConnectSeat(m) =>
      && w.connecting.Some? && w.connecting.value.insert == {} && w.connecting.value.retire == {}
      && m in w.connecting.value.start && m in w.registry
    case ConnectEnd => w.connecting == Some(Connect({}, {}, {}))
    case Mount(m) => w.connecting.None? && m !in w.registry
    case Boot(m) => w.connecting.None? && m in w.registry && DesktopOwned(m)
    case SeatListed(m) => w.connecting.None? && m in w.registry
    case RetireListed(m) => w.connecting.None? && m in w.registered
    case Retaste(m, hash) => w.connecting.None? && m in w.registry && w.registry[m] < |w.seats| && w.seats[w.registry[m]].tasting != hash
    case Untaste(m) => w.connecting.None? && m in w.registry
    case Reload(m, hash, replacement) =>
      && w.connecting.None? && m in w.registry && !DesktopOwned(m) && w.registry[m] < |w.seats|
      && Reloads(w.seats[w.registry[m]], hash) && Replaceable(w.seats[w.registry[m]].slot, replacement)
    case LoadStep(l, next) =>
      l < |w.loads| && w.loads[l].seat < |w.seats| && LoadMoves(l, w.loads[l], w.seats[w.loads[l].seat], next)
    case InstallStep(l, _) => l < |w.loads| && w.loads[l].phase.Done?
    case GuestStep(s, after) => s < |w.seats| && w.seats[s].slot.Ready? && GuestMoves(w.seats[s].slot.guest, after)
  }

  /** Every id a world mentions exists. */
  predicate Formed(w: World) {
    && (forall m :: m in w.registry ==> w.registry[m] < |w.seats| && w.seats[w.registry[m]].mod == m)
    && (forall l :: 0 <= l < |w.loads| ==> w.loads[l].seat < |w.seats|)
  }

  function SeatOf(w: World, m: Module): Seat
    requires Formed(w) && m in w.registry
  {
    w.seats[w.registry[m]]
  }

  function Apply(w: World, mv: Move): World
    requires Formed(w) && Enabled(w, mv)
  {
    match mv
    case ConnectBegin =>
      w.(rev := w.rev + 1, registered := {},
      connecting := Some(Connect(MODULE_OWNED - w.registry.Keys, w.registered, w.registry.Keys + MODULE_OWNED - w.registered)))
    case ConnectInsert(m) => Insert(w, m).(connecting := Some(w.connecting.value.(insert := w.connecting.value.insert - {m})))
    case ConnectRetire(m) => Retire(w, m).(connecting := Some(w.connecting.value.(retire := w.connecting.value.retire - {m})))
    case ConnectSeat(m) => ConnectOne(w, m).(connecting := Some(w.connecting.value.(start := w.connecting.value.start - {m})))
    case ConnectEnd => w.(connecting := None)
    case Mount(m) => Insert(w, m)
    case Boot(m) => Start(w, w.registry[m], None, Preserve)
    case SeatListed(m) =>
      (if SeatOf(w, m).generation > 0 then w else Start(w, w.registry[m], None, Preserve)).(registered := w.registered + {m})
    case RetireListed(m) => Retire(w, m).(registered := w.registered - {m})
    case Retaste(m, hash) => Start(SetSeat(w, w.registry[m], SeatOf(w, m).(tasting := hash)), w.registry[m], hash, Preserve)
    case Untaste(m) => SetSeat(w, w.registry[m], SeatOf(w, m).(tasting := None))
    case Reload(m, hash, replacement) => Start(w, w.registry[m], hash, replacement)
    case LoadStep(l, next) => SetPhase(w, l, next)
    case InstallStep(l, projects) => Install(w, l, projects)
    case GuestStep(s, after) => SetSeat(w, s, w.seats[s].(slot := Ready(after)))
  }

  /** A connect reaches one seat: the desktop's own view, seated or on its way, is left alone. */
  function ConnectOne(w: World, m: Module): World
    requires Formed(w) && m in w.registry
  {
    var seat := SeatOf(w, m);
    if DesktopOwned(m) && (seat.slot.Ready? || seat.inFlight) then w
    else Start(SetSeat(w, w.registry[m], seat.(tasting := None)), w.registry[m], None, Preserve)
  }
}
