/** The table of claimed chords, counted per live subscription of every guest. */
module Chords {
  import opened Values

  type Chord = string
  type ModuleId = string

  const MAX_SUBSCRIPTIONS: nat := 256
  const MAX_CHORD_KEY: nat := 12

  // -- Spelling ------------------------------------------------------------------------------

  predicate KeyOk(key: string) {
    0 < |key| <= MAX_CHORD_KEY && forall i :: 0 <= i < |key| ==> 'a' <= key[i] <= 'z' || '0' <= key[i] <= '9'
  }

  /** What a press of a trimmed, lower-case key spells. */
  function ChordOf(command: bool, shift: bool, alt: bool, key: string): Option<Chord> {
    if !command || !KeyOk(key) then None
    else Some("cmd" + (if shift then "-shift" else "") + (if alt then "-alt" else "") + "-" + key)
  }

  function Strip(text: string, prefix: string): string {
    if prefix <= text then text[|prefix|..] else text
  }

  /** May a guest claim it? */
  predicate IsChord(chord: Chord) {
    "cmd-" <= chord && KeyOk(Strip(Strip(chord[4..], "shift-"), "alt-"))
  }

  function AfterCmd(shift: bool, alt: bool, key: string): string {
    (if shift then "shift-" else "") + ((if alt then "alt-" else "") + key)
  }

  lemma SpelledAfterCmd(shift: bool, alt: bool, key: string)
    requires KeyOk(key)
    ensures ChordOf(true, shift, alt, key) == Some("cmd-" + AfterCmd(shift, alt, key))
  {
    assert "cmd" + (if shift then "-shift" else "") + (if alt then "-alt" else "") + "-" + key == "cmd-" + AfterCmd(shift, alt, key);
  }

  lemma NotPrefix(prefix: string, text: string, i: nat)
    requires i < |prefix| && (i < |text| ==> text[i] != prefix[i])
    ensures !(prefix <= text)
  {
  }

  /** The modifiers and the key can be read off a spelling. */
  lemma Unspelled(shift: bool, alt: bool, key: string)
    requires KeyOk(key)
    ensures shift == ("shift-" <= AfterCmd(shift, alt, key))
    ensures alt == ("alt-" <= Strip(AfterCmd(shift, alt, key), "shift-"))
    ensures key == Strip(Strip(AfterCmd(shift, alt, key), "shift-"), "alt-")
  {
    var rest := (if alt then "alt-" else "") + key;
    NotPrefix("shift-", key, 5);
    NotPrefix("alt-", key, 3);
    if !shift {
      assert AfterCmd(shift, alt, key) == rest;
      if alt {
        NotPrefix("shift-", rest, 0);
      }
    }
    assert Strip(AfterCmd(shift, alt, key), "shift-") == rest;
    assert alt || rest == key;
  }

  lemma Restored(text: string, prefix: string)
    ensures text == (if prefix <= text then prefix else "") + Strip(text, prefix)
  {
  }

  lemma ClaimableSpelled(chord: Chord) returns (shift: bool, alt: bool, key: string)
    requires IsChord(chord)
    ensures ChordOf(true, shift, alt, key) == Some(chord)
  {
    var rest := chord[4..];
    var inner := Strip(rest, "shift-");
    shift, alt, key := "shift-" <= rest, "alt-" <= inner, Strip(inner, "alt-");
    Restored(rest, "shift-");
    Restored(inner, "alt-");
    SpelledAfterCmd(shift, alt, key);
    assert chord == "cmd-" + rest;
  }

  lemma SpelledClaimable(shift: bool, alt: bool, key: string)
    requires KeyOk(key)
    ensures IsChord(ChordOf(true, shift, alt, key).value)
  {
    SpelledAfterCmd(shift, alt, key);
    Unspelled(shift, alt, key);
    assert ("cmd-" + AfterCmd(shift, alt, key))[4..] == AfterCmd(shift, alt, key);
  }

  /** A guest may claim exactly the chords some press can spell. */
  lemma ClaimableIsPressable(chord: Chord)
    ensures IsChord(chord) <==> exists shift, alt, key :: ChordOf(true, shift, alt, key) == Some(chord)
  {
    if IsChord(chord) {
      var shift, alt, key := ClaimableSpelled(chord);
    }
    if shift, alt, key :| ChordOf(true, shift, alt, key) == Some(chord) {
      SpelledClaimable(shift, alt, key);
    }
  }

  /** One spelling: a claim and a press never disagree about how to say the same chord. */
  lemma OneSpelling(shift: bool, alt: bool, key: string, shift': bool, alt': bool, key': string)
    requires KeyOk(key) && KeyOk(key') && ChordOf(true, shift, alt, key) == ChordOf(true, shift', alt', key')
    ensures shift == shift' && alt == alt' && key == key'
  {
    SpelledAfterCmd(shift, alt, key);
    SpelledAfterCmd(shift', alt', key');
    var a, b := AfterCmd(shift, alt, key), AfterCmd(shift', alt', key');
    assert a == ("cmd-" + a)[4..] == ("cmd-" + b)[4..] == b;
    Unspelled(shift, alt, key);
    Unspelled(shift', alt', key');
  }

  // -- Counting ------------------------------------------------------------------------------

  datatype Subscription = Subscription(id: nat, chord: Chord)

  /** A guest and its claims. `unlisted` are claims its list does not show: one it has just made, or ones it
      is still giving back. A dropped guest has none. */
  datatype Guest = Guest(mod: ModuleId, chords: seq<Subscription>, unlisted: seq<Subscription>)

  datatype Claim = Claim(holder: ModuleId, held: nat)

  function CountIn(chords: seq<Subscription>, chord: Chord): nat {
    if chords == [] then 0 else CountIn(chords[..|chords| - 1], chord) + (if chords[|chords| - 1].chord == chord then 1 else 0)
  }

  /** How many claims on a chord a guest has. */
  function Claims(guest: Guest, chord: Chord): nat {
    CountIn(guest.chords, chord) + CountIn(guest.unlisted, chord)
  }

  /** How many claims on a chord there are. */
  function Count(guests: seq<Guest>, chord: Chord): nat {
    if guests == [] then 0 else Count(guests[..|guests| - 1], chord) + Claims(guests[|guests| - 1], chord)
  }

  lemma {:induction false} CountUpdate(guests: seq<Guest>, g: nat, guest: Guest, chord: Chord)
    requires g < |guests|
    ensures Count(guests[g := guest], chord) + Claims(guests[g], chord) == Count(guests, chord) + Claims(guest, chord)
  {
    var after := guests[g := guest];
    if g < |guests| - 1 {
      CountUpdate(guests[..|guests| - 1], g, guest, chord);
      assert after[..|guests| - 1] == guests[..|guests| - 1][g := guest];
    } else {
      assert after[..|guests| - 1] == guests[..|guests| - 1];
    }
  }

  lemma {:induction false} CountAtLeast(guests: seq<Guest>, g: nat, chord: Chord)
    requires g < |guests|
    ensures Claims(guests[g], chord) <= Count(guests, chord)
  {
    if g < |guests| - 1 {
      CountAtLeast(guests[..|guests| - 1], g, chord);
    }
  }

  lemma {:induction false} CountHolder(guests: seq<Guest>, chord: Chord)
    requires Count(guests, chord) > 0
    ensures exists g :: 0 <= g < |guests| && Claims(guests[g], chord) > 0
  {
    if Claims(guests[|guests| - 1], chord) == 0 {
      CountHolder(guests[..|guests| - 1], chord);
      var g :| 0 <= g < |guests| - 1 && Claims(guests[..|guests| - 1][g], chord) > 0;
      assert guests[..|guests| - 1][g] == guests[g];
    }
  }

  function Held(claims: map<Chord, Claim>, chord: Chord): nat {
    if chord in claims then claims[chord].held else 0
  }

  function Kept(chords: seq<Subscription>, id: nat): seq<Subscription> {
    if chords == [] then []
    else Kept(chords[..|chords| - 1], id) + (if chords[|chords| - 1].id == id then [] else [chords[|chords| - 1]])
  }

  function Dropped(chords: seq<Subscription>, id: nat): seq<Subscription> {
    if chords == [] then []
    else Dropped(chords[..|chords| - 1], id) + (if chords[|chords| - 1].id == id then [chords[|chords| - 1]] else [])
  }

  lemma CountAppend(chords: seq<Subscription>, s: Subscription, chord: Chord)
    ensures CountIn(chords + [s], chord) == CountIn(chords, chord) + (if s.chord == chord then 1 else 0)
  {
    assert (chords + [s])[..|chords|] == chords;
  }

  lemma {:induction false} CountConcat(a: seq<Subscription>, b: seq<Subscription>, chord: Chord)
    ensures CountIn(a + b, chord) == CountIn(a, chord) + CountIn(b, chord)
  {
    if b == [] {
      assert a + b == a;
    } else {
      CountConcat(a, b[..|b| - 1], chord);
      assert (a + b)[..|a + b| - 1] == a + b[..|b| - 1];
    }
  }

  lemma CountFirst(chords: seq<Subscription>, chord: Chord)
    requires chords != []
    ensures CountIn(chords, chord) == CountIn(chords[1..], chord) + (if chords[0].chord == chord then 1 else 0)
  {
    assert chords == [chords[0]] + chords[1..];
    CountConcat([chords[0]], chords[1..], chord);
    assert [chords[0]] == [] + [chords[0]];
    CountAppend([], chords[0], chord);
  }

  lemma {:induction false} KeptAndDropped(chords: seq<Subscription>, id: nat, chord: Chord)
    ensures CountIn(chords, chord) == CountIn(Kept(chords, id), chord) + CountIn(Dropped(chords, id), chord)
  {
    if chords != [] {
      var init, last := chords[..|chords| - 1], chords[|chords| - 1];
      KeptAndDropped(init, id, chord);
      if last.id == id {
        CountAppend(Dropped(init, id), last, chord);
        assert Kept(init, id) + [] == Kept(init, id);
      } else {
        CountAppend(Kept(init, id), last, chord);
        assert Dropped(init, id) + [] == Dropped(init, id);
      }
    }
  }

  // -- The accounts ----------------------------------------------------------------------------

  /** The table counts every guest's claims, and gives each chord to one module. */
  ghost predicate Accounts(claims: map<Chord, Claim>, guests: seq<Guest>) {
    && (forall chord :: Held(claims, chord) == Count(guests, chord))
    && (forall chord :: chord in claims ==> claims[chord].held > 0)
    && (forall g, chord :: 0 <= g < |guests| && Claims(guests[g], chord) > 0 ==> chord in claims && claims[chord].holder == guests[g].mod)
  }

  predicate Free(claims: map<Chord, Claim>, chord: Chord, mod: ModuleId) {
    chord in claims ==> claims[chord].holder == mod
  }

  /** One more claim on a chord that is free to the guest. */
  lemma TakenAccounts(was: map<Chord, Claim>, claims: map<Chord, Claim>, before: seq<Guest>, guests: seq<Guest>, g: nat, s: Subscription)
    requires Accounts(was, before) && g < |before| && Free(was, s.chord, before[g].mod)
    requires guests == before[g := before[g].(unlisted := before[g].unlisted + [s])]
    requires claims == was[s.chord := Claim(before[g].mod, Held(was, s.chord) + 1)]
    ensures Accounts(claims, guests)
  {
    forall chord
      ensures Held(claims, chord) == Count(guests, chord)
    {
      CountUpdate(before, g, guests[g], chord);
      CountAppend(before[g].unlisted, s, chord);
    }
    forall i, chord | 0 <= i < |guests| && Claims(guests[i], chord) > 0
      ensures chord in claims && claims[chord].holder == guests[i].mod
    {
      CountAppend(before[g].unlisted, s, chord);
    }
  }

  /** Moving a guest's claims on and off its list changes nothing. */
  lemma RelistedAccounts(claims: map<Chord, Claim>, before: seq<Guest>, guests: seq<Guest>, g: nat, guest: Guest)
    requires Accounts(claims, before) && g < |before| && guests == before[g := guest] && guest.mod == before[g].mod
    requires forall chord :: Claims(guest, chord) == Claims(before[g], chord)
    ensures Accounts(claims, guests)
  {
    forall chord
      ensures Held(claims, chord) == Count(guests, chord)
    {
      CountUpdate(before, g, guest, chord);
    }
  }

  /** The first unlisted claim of a guest is given back. */
  lemma GivenAccounts(was: map<Chord, Claim>, claims: map<Chord, Claim>, before: seq<Guest>, guests: seq<Guest>, g: nat)
    requires Accounts(was, before) && g < |before| && before[g].unlisted != []
    requires guests == before[g := before[g].(unlisted := before[g].unlisted[1..])]
    requires
      var chord := before[g].unlisted[0].chord;
      && chord in was
      && claims == if was[chord].held == 1 then was - {chord} else was[chord := Claim(before[g].mod, was[chord].held - 1)]
    ensures Accounts(claims, guests)
  {
    forall chord
      ensures Held(claims, chord) == Count(guests, chord)
    {
      CountUpdate(before, g, guests[g], chord);
      CountFirst(before[g].unlisted, chord);
    }
    forall i, chord | 0 <= i < |guests| && Claims(guests[i], chord) > 0
      ensures chord in claims && claims[chord].holder == guests[i].mod
    {
      CountFirst(before[g].unlisted, chord);
      CountFirst(before[g].unlisted, before[g].unlisted[0].chord);
      CountAtLeast(guests, i, chord);
      assert Held(claims, chord) == Count(guests, chord);
    }
  }

  class ChordTable {
    var claims: map<Chord, Claim>
    var guests: seq<Guest>

    ghost predicate Valid()
      reads this
    {
      Accounts(claims, guests)
    }

    constructor ()
      ensures Valid() && claims == map[] && guests == []
    {
      claims, guests := map[], [];
    }

    method ClaimChord(chord: Chord, mod: ModuleId) returns (ok: bool)
      modifies this`claims
      ensures ok <==> Free(old(claims), chord, mod)
      ensures claims == if ok then old(claims)[chord := Claim(mod, Held(old(claims), chord) + 1)] else old(claims)
    {
      if chord in claims && claims[chord].holder != mod {
        return false;
      }
      claims := claims[chord := Claim(mod, (if chord in claims then claims[chord].held else 0) + 1)];
      ok := true;
    }

    method ReleaseChord(chord: Chord, mod: ModuleId)
      requires chord in claims ==> claims[chord].held > 0
      modifies this`claims
      ensures claims ==
          if chord !in old(claims) || old(claims)[chord].holder != mod then old(claims)
          else if old(claims)[chord].held == 1 then old(claims) - {chord}
          else old(claims)[chord := Claim(mod, old(claims)[chord].held - 1)]
    {
      if chord !in claims || claims[chord].holder != mod {
        return;
      }
      if claims[chord].held == 1 {
        claims := claims - {chord};
      } else {
        claims := claims[chord := Claim(mod, claims[chord].held - 1)];
      }
    }

    // -- What one guest does in one go -----------------------------------------------------------

    /** A guest is instantiated, claiming nothing yet. */
    method Seat(mod: ModuleId) returns (g: nat)
      requires Valid()
      modifies this
      ensures Valid() && claims == old(claims)
      ensures g == |old(guests)| && guests == old(guests) + [Guest(mod, [], [])]
    {
      g := |guests|;
      ghost var before := guests;
      guests := guests + [Guest(mod, [], [])];
      assert guests[..g] == before;
    }

    /** Under the lock: claim a chord that the guest does not list yet. */
    method Take(g: nat, s: Subscription) returns (ok: bool)
      requires Valid() && g < |guests|
      modifies this
      ensures Valid() && (ok <==> Free(old(claims), s.chord, old(guests)[g].mod))
      ensures guests == if ok then old(guests)[g := old(guests)[g].(unlisted := old(guests)[g].unlisted + [s])] else old(guests)
    {
      ok := ClaimChord(s.chord, guests[g].mod);
      if ok {
        guests := guests[g := guests[g].(unlisted := guests[g].unlisted + [s])];
        TakenAccounts(old(claims), claims, old(guests), guests, g, s);
      }
    }

    /** The guest puts its unlisted claims on its list. */
    method List(g: nat)
      requires Valid() && g < |guests|
      modifies this`guests
      ensures Valid()
      ensures guests == old(guests)[g := Guest(old(guests)[g].mod, old(guests)[g].chords + old(guests)[g].unlisted, [])]
    {
      var guest := Guest(guests[g].mod, guests[g].chords + guests[g].unlisted, []);
      forall chord
        ensures Claims(guest, chord) == Claims(guests[g], chord)
      {
        CountConcat(guests[g].chords, guests[g].unlisted, chord);
      }
      guests := guests[g := guest];
      RelistedAccounts(claims, old(guests), guests, g, guest);
    }

    /** The guest takes the chords of one subscription off its list. */
    method Unlist(g: nat, id: nat)
      requires Valid() && g < |guests|
      modifies this`guests
      ensures Valid()
      ensures guests == old(guests)[g := Guest(old(guests)[g].mod, Kept(old(guests)[g].chords, id),
                                               old(guests)[g].unlisted + Dropped(old(guests)[g].chords, id))]
    {
      var guest := Guest(guests[g].mod, Kept(guests[g].chords, id), guests[g].unlisted + Dropped(guests[g].chords, id));
      forall chord
        ensures Claims(guest, chord) == Claims(guests[g], chord)
      {
        KeptAndDropped(guests[g].chords, id, chord);
        CountConcat(guests[g].unlisted, Dropped(guests[g].chords, id), chord);
      }
      guests := guests[g := guest];
      RelistedAccounts(claims, old(guests), guests, g, guest);
    }

    /** The guest is gone, and with it its list. */
    method UnlistAll(g: nat)
      requires Valid() && g < |guests|
      modifies this`guests
      ensures Valid()
      ensures guests == old(guests)[g := Guest(old(guests)[g].mod, [], old(guests)[g].unlisted + old(guests)[g].chords)]
    {
      var guest := Guest(guests[g].mod, [], guests[g].unlisted + guests[g].chords);
      forall chord
        ensures Claims(guest, chord) == Claims(guests[g], chord)
      {
        CountConcat(guests[g].unlisted, guests[g].chords, chord);
      }
      guests := guests[g := guest];
      RelistedAccounts(claims, old(guests), guests, g, guest);
    }

    /** Under the lock: give back the first unlisted claim. */
    method Give(g: nat)
      requires Valid() && g < |guests| && guests[g].unlisted != []
      modifies this
      ensures Valid()
      ensures guests == old(guests)[g := old(guests)[g].(unlisted := old(guests)[g].unlisted[1..])]
    {
      var chord := guests[g].unlisted[0].chord;
      CountFirst(guests[g].unlisted, chord);
      assert Claims(guests[g], chord) > 0;
      ReleaseChord(chord, guests[g].mod);
      guests := guests[g := guests[g].(unlisted := guests[g].unlisted[1..])];
      GivenAccounts(old(claims), claims, old(guests), guests, g);
    }

    /** Any guests but one do anything, in any order, meanwhile. */
    method Others(g: nat)
      requires Valid() && g < |guests|
      modifies this
      ensures Valid() && |guests| >= |old(guests)| && guests[g] == old(guests)[g]
    {
      var left: int := *;
      while left > 0
        invariant Valid() && |guests| >= |old(guests)| && guests[g] == old(guests)[g]
      {
        var h: int, id: int, text: string := *, *, *;
        if 0 <= h < |guests| && h != g && id >= 0 {
          if
          case true => var _ := Take(h, Subscription(id, text));
          case true => List(h);
          case true => Unlist(h, id);
          case true => UnlistAll(h);
          case guests[h].unlisted != [] => Give(h);
        } else {
          var _ := Seat(text);
        }
        left := left - 1;
      }
    }

    // -- What a guest asks for, the others acting meanwhile -----------------------------------------

    /** A guest asks for a chord on one of its subscriptions. */
    method Subscribe(g: nat, id: nat, chord: Chord) returns (ok: bool)
      requires Valid() && g < |guests| && guests[g].unlisted == []
      modifies this
      ensures Valid() && |guests| >= |old(guests)|
      ensures ok <==> && IsChord(chord) && |old(guests)[g].chords| < MAX_SUBSCRIPTIONS
                      && forall h :: 0 <= h < |old(guests)| && Claims(old(guests)[h], chord) > 0 ==> old(guests)[h].mod == old(guests)[g].mod
      ensures guests[g] == if ok then old(guests)[g].(chords := old(guests)[g].chords + [Subscription(id, chord)]) else old(guests)[g]
    {
      if !IsChord(chord) || |guests[g].chords| >= MAX_SUBSCRIPTIONS {
        return false;
      }
      FreeUnlessHeld(claims, guests, chord, guests[g].mod);
      ok := Take(g, Subscription(id, chord));
      Others(g);
      if ok {
        List(g);
      }
    }

    /** Give back every unlisted claim of a guest, one lock at a time. */
    method GiveAll(g: nat)
      requires Valid() && g < |guests|
      modifies this
      ensures Valid() && |guests| >= |old(guests)| && guests[g] == old(guests)[g].(unlisted := [])
    {
      while guests[g].unlisted != []
        invariant Valid() && |guests| >= |old(guests)|
        invariant guests[g] == old(guests)[g].(unlisted := guests[g].unlisted)
        decreases |guests[g].unlisted|
      {
        Give(g);
        Others(g);
      }
    }

    /** A subscription is cancelled: its chords are given back. */
    method Cancel(g: nat, id: nat)
      requires Valid() && g < |guests| && guests[g].unlisted == []
      modifies this
      ensures Valid() && |guests| >= |old(guests)|
      ensures guests[g] == Guest(old(guests)[g].mod, Kept(old(guests)[g].chords, id), [])
    {
      Unlist(g, id);
      Others(g);
      GiveAll(g);
    }

    /** A guest is retired, replaced or ended: every chord leaves with it. */
    method Drop(g: nat)
      requires Valid() && g < |guests| && guests[g].unlisted == []
      modifies this
      ensures Valid() && |guests| >= |old(guests)|
      ensures guests[g] == Guest(old(guests)[g].mod, [], [])
    {
      UnlistAll(g);
      Others(g);
      GiveAll(g);
    }
  }

  lemma FreeUnlessHeld(claims: map<Chord, Claim>, guests: seq<Guest>, chord: Chord, mod: ModuleId)
    requires Accounts(claims, guests)
    ensures Free(claims, chord, mod) <==> forall h :: 0 <= h < |guests| && Claims(guests[h], chord) > 0 ==> guests[h].mod == mod
  {
    if chord in claims {
      assert Held(claims, chord) == Count(guests, chord);
      CountHolder(guests, chord);
    }
  }

  /** At every moment, in the middle of any guest's claim or release: a chord is claimed exactly while some guest has
      a claim on it, its count is their number, and they are all the holder's. */
  lemma ClaimedWhileHeld(claims: map<Chord, Claim>, guests: seq<Guest>, chord: Chord)
    requires Accounts(claims, guests)
    ensures chord in claims <==> exists g :: 0 <= g < |guests| && Claims(guests[g], chord) > 0
    ensures chord in claims ==> claims[chord].held == Count(guests, chord)
    ensures forall g :: 0 <= g < |guests| && Claims(guests[g], chord) > 0 ==> claims[chord].holder == guests[g].mod
  {
    assert Held(claims, chord) == Count(guests, chord);
    if chord in claims {
      CountHolder(guests, chord);
    }
  }

  /** With no claim or release under way, that is exactly while some live subscription names it. */
  lemma ClaimedWhileSubscribed(claims: map<Chord, Claim>, guests: seq<Guest>, chord: Chord)
    requires Accounts(claims, guests) && forall g :: 0 <= g < |guests| ==> guests[g].unlisted == []
    ensures chord in claims <==> exists g, k :: 0 <= g < |guests| && 0 <= k < |guests[g].chords| && guests[g].chords[k].chord == chord
  {
    ClaimedWhileHeld(claims, guests, chord);
    forall g | 0 <= g < |guests|
      ensures Claims(guests[g], chord) > 0 <==> exists k :: 0 <= k < |guests[g].chords| && guests[g].chords[k].chord == chord
    {
      CountedIn(guests[g].chords, chord);
    }
  }

  lemma {:induction false} CountedIn(chords: seq<Subscription>, chord: Chord)
    ensures CountIn(chords, chord) > 0 <==> exists k :: 0 <= k < |chords| && chords[k].chord == chord
  {
    if chords != [] {
      CountedIn(chords[..|chords| - 1], chord);
      if CountIn(chords[..|chords| - 1], chord) > 0 {
        var k :| 0 <= k < |chords| - 1 && chords[..|chords| - 1][k].chord == chord;
        assert chords[k].chord == chord;
      }
    }
  }
}
