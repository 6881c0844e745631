/** Presence in pub/sub channels: reference counts changed under a lock, and
    join and leave events sent after the lock is released. */
module Presence {
  import opened Prelude
  import opened JsonValues

  datatype Entry = Entry(connectedAt: int, count: int)

  /** By channel, then by client. */
  type Roster = map<string, map<string, Entry>>

  datatype Kind = Join | Leave

  datatype Announcement = Announcement(channel: string, client: string, kind: Kind)

  function Clients(r: Roster, channel: string): map<string, Entry> {
    if channel in r then r[channel] else map[]
  }

  predicate Present(r: Roster, channel: string, client: string) {
    client in Clients(r, channel)
  }

  /** The stored count; none is stored for an absent client. */
  function Count(r: Roster, channel: string, client: string): int {
    if Present(r, channel, client) then Clients(r, channel)[client].count else 0
  }

  // ---- Under the lock -------------------------------------------------------

  function Registered(r: Roster, channel: string, client: string, now: int): Roster {
    var entry := if Present(r, channel, client)
                 then Entry(r[channel][client].connectedAt, r[channel][client].count + 1)
                 else Entry(now, 1);
    r[channel := Clients(r, channel)[client := entry]]
  }

  function Dropped(r: Roster, channel: string, client: string): Roster {
    if !Present(r, channel, client) then
      if channel in r && r[channel] == map[] then r - {channel} else r
    else
      var entry := r[channel][client];
      var left := if entry.count == 1 then r[channel] - {client}
                  else r[channel][client := entry.(count := entry.count - 1)];
      if left == map[] then r - {channel} else r[channel := left]
  }

  class PresenceMap {
    var roster: Roster

    constructor ()
      ensures roster == map[]
    {
      roster := map[];
    }

    /** The locked part of registering; whether the client is new to the channel. */
    method Register(channel: string, client: string, now: int) returns (first: bool)
      modifies this
      ensures roster == Registered(old(roster), channel, client, now)
      ensures first <==> !Present(old(roster), channel, client)
    {
      if channel !in roster {
        roster := roster[channel := map[]];
      }
      var clients := roster[channel];
      if client in clients {
        var entry := clients[client];
        roster := roster[channel := clients[client := entry.(count := entry.count + 1)]];
        first := false;
      } else {
        roster := roster[channel := clients[client := Entry(now, 1)]];
        first := true;
      }
    }

    /** The locked part of dropping; whether the client left the channel. */
    method Drop(channel: string, client: string) returns (last: bool)
      modifies this
      ensures roster == Dropped(old(roster), channel, client)
      ensures last <==> Count(old(roster), channel, client) == 1
    {
      last := false;
      if channel in roster {
        var clients := roster[channel];
        if client in clients {
          var entry := clients[client];
          clients := clients[client := entry.(count := entry.count - 1)];
          if entry.count - 1 == 0 {
            clients := clients - {client};
            last := true;
          }
        }
        assert last ==> clients == roster[channel] - {client};
        roster := roster[channel := clients];
        if clients == map[] {
          roster := roster - {channel};
          assert roster == old(roster) - {channel};
        }
      }
      assert roster == Dropped(old(roster), channel, client);
    }
  }

  // ---- All interleavings ----------------------------------------------------

  /** An announcement with the guard it comes from. */
  type Tagged = (nat, Announcement)

  /** `live` names the guards that hold a count; `pending` the announcements
      decided under the lock and not yet sent; `decided` every announcement in the
      order of the lock, `sent` in the order of the sends. */
  datatype World = World(roster: Roster, live: map<nat, (string, string)>,
                         pending: seq<Tagged>, decided: seq<Tagged>, sent: seq<Tagged>, used: set<nat>)

  datatype Action =
    | Connect(guard: nat, channel: string, client: string, now: int)
    | Disconnect(guard: nat)
    | Announce(at: nat)

  /** A guard can be dropped only once its constructor has sent its join. */
  predicate Enabled(w: World, a: Action) {
    match a
    case Connect(g, _, _, _) => g !in w.used
    case Disconnect(g) => g in w.live && forall i :: 0 <= i < |w.pending| ==> w.pending[i].0 != g
    case Announce(i) => i < |w.pending|
  }

  function Decide(w: World, guard: nat, a: Announcement): World {
    w.(pending := w.pending + [(guard, a)], decided := w.decided + [(guard, a)])
  }

  function Next(w: World, a: Action): World
    requires Enabled(w, a)
  {
    match a
    case Connect(g, channel, client, now) =>
      var locked := w.(roster := Registered(w.roster, channel, client, now), live := w.live[g := (channel, client)], used := w.used + {g});
      if Present(w.roster, channel, client) then locked else Decide(locked, g, Announcement(channel, client, Join))
    case Disconnect(g) =>
      var (channel, client) := w.live[g];
      var locked := w.(roster := Dropped(w.roster, channel, client), live := w.live - {g});
      if Count(w.roster, channel, client) == 1 then Decide(locked, g, Announcement(channel, client, Leave)) else locked
    case Announce(i) =>
      w.(pending := w.pending[..i] + w.pending[i + 1..], sent := w.sent + [w.pending[i]])
  }

  function Exec(run: seq<Action>): Option<World> {
    if run == [] then Some(World(map[], map[], [], [], [], {}))
    else
      match Exec(run[..|run| - 1])
      case None => None
      case Some(w) => if Enabled(w, run[|run| - 1]) then Some(Next(w, run[|run| - 1])) else None
  }

  // ---- Counting -------------------------------------------------------------

  function Holding(live: map<nat, (string, string)>, channel: string, client: string): (r: set<nat>)
    ensures forall g :: g in r <==> g in live && live[g] == (channel, client)
  {
    set g | g in live && live[g] == (channel, client)
  }

  /** Counts are the numbers of live guards, stored ones at least 1, and no
      channel is empty. */
  ghost predicate Counted(w: World) {
    && (forall channel, client :: Count(w.roster, channel, client) == |Holding(w.live, channel, client)|)
    && (forall channel, client :: Present(w.roster, channel, client) ==> Count(w.roster, channel, client) >= 1)
    && (forall channel :: channel in w.roster ==> w.roster[channel] != map[])
  }

  lemma RegisteredCount(r: Roster, channel: string, client: string, now: int, ch: string, cl: string)
    ensures var after := Registered(r, channel, client, now);
            && Count(after, ch, cl) == Count(r, ch, cl) + (if (ch, cl) == (channel, client) then 1 else 0)
            && (Present(after, ch, cl) <==> Present(r, ch, cl) || (ch, cl) == (channel, client))
  {
  }

  lemma DroppedCount(r: Roster, channel: string, client: string, ch: string, cl: string)
    requires Count(r, channel, client) >= 1
    ensures var after := Dropped(r, channel, client);
            && Count(after, ch, cl) == Count(r, ch, cl) - (if (ch, cl) == (channel, client) then 1 else 0)
            && (Present(after, ch, cl) <==> Present(r, ch, cl) && ((ch, cl) != (channel, client) || Count(r, channel, client) != 1))
  {
  }

  lemma NoneEmpty(r: Roster, channel: string, client: string, now: int)
    requires forall ch :: ch in r ==> r[ch] != map[]
    ensures var after := Registered(r, channel, client, now); forall ch :: ch in after ==> after[ch] != map[]
    ensures var after := Dropped(r, channel, client); forall ch :: ch in after ==> after[ch] != map[]
  {
    var clients := Registered(r, channel, client, now)[channel];
    assert client in clients;
  }

  lemma HoldingGrows(live: map<nat, (string, string)>, guard: nat, place: (string, string), ch: string, cl: string)
    requires guard !in live
    ensures |Holding(live[guard := place], ch, cl)| == |Holding(live, ch, cl)| + if (ch, cl) == place then 1 else 0
  {
    assert Holding(live[guard := place], ch, cl) == Holding(live, ch, cl) + if (ch, cl) == place then {guard} else {};
  }

  lemma HoldingShrinks(live: map<nat, (string, string)>, guard: nat, ch: string, cl: string)
    requires guard in live
    ensures |Holding(live - {guard}, ch, cl)| == |Holding(live, ch, cl)| - if (ch, cl) == live[guard] then 1 else 0
    ensures |Holding(live, live[guard].0, live[guard].1)| >= 1
  {
    assert guard in Holding(live, live[guard].0, live[guard].1);
    assert Holding(live - {guard}, ch, cl) == Holding(live, ch, cl) - if (ch, cl) == live[guard] then {guard} else {};
  }

  lemma ConnectCounts(w: World, a: Action)
    requires a.Connect? && Enabled(w, a) && Counted(w) && (forall g :: g in w.live ==> g in w.used)
    ensures Counted(Next(w, a))
  {
    var v := Next(w, a);
    hide Registered, Dropped, Count, Present, Holding;
    NoneEmpty(w.roster, a.channel, a.client, a.now);
    forall channel, client
      ensures Count(v.roster, channel, client) == |Holding(v.live, channel, client)|
      ensures Present(v.roster, channel, client) ==> Count(v.roster, channel, client) >= 1
    {
      RegisteredCount(w.roster, a.channel, a.client, a.now, channel, client);
      HoldingGrows(w.live, a.guard, (a.channel, a.client), channel, client);
      assert Count(w.roster, channel, client) == |Holding(w.live, channel, client)|;
    }
  }

  lemma DisconnectCounts(w: World, a: Action)
    requires a.Disconnect? && Enabled(w, a) && Counted(w)
    ensures Counted(Next(w, a))
  {
    var v := Next(w, a);
    var (ch, cl) := w.live[a.guard];
    hide Registered, Dropped, Count, Present, Holding;
    NoneEmpty(w.roster, ch, cl, 0);
    HoldingShrinks(w.live, a.guard, ch, cl);
    assert Count(w.roster, ch, cl) == |Holding(w.live, ch, cl)|;
    forall channel, client
      ensures Count(v.roster, channel, client) == |Holding(v.live, channel, client)|
      ensures Present(v.roster, channel, client) ==> Count(v.roster, channel, client) >= 1
    {
      DroppedCount(w.roster, ch, cl, channel, client);
      HoldingShrinks(w.live, a.guard, channel, client);
      assert Count(w.roster, channel, client) == |Holding(w.live, channel, client)|;
    }
  }

  // ---- Announcing -----------------------------------------------------------

  /** Joins less leaves of one client in one channel. */
  function Balance(events: seq<Announcement>, channel: string, client: string): int {
    (multiset(events)[Announcement(channel, client, Join)] as int) - (multiset(events)[Announcement(channel, client, Leave)] as int)
  }

  function Bare(events: seq<Tagged>): (r: seq<Announcement>)
    ensures |r| == |events| && forall i :: 0 <= i < |r| ==> r[i] == events[i].1
  {
    seq(|events|, i requires 0 <= i < |events| => events[i].1)
  }

  /** A client joins when its joins and leaves so far are even, and leaves when
      they are not. */
  predicate Alternates(decided: seq<Announcement>) {
    decided == [] ||
    var front, last := decided[..|decided| - 1], decided[|decided| - 1];
    && Alternates(front)
    && Balance(front, last.channel, last.client) == if last.kind == Join then 0 else 1
  }

  ghost predicate Announced(w: World) {
    && Alternates(Bare(w.decided))
    && (forall channel, client :: Balance(Bare(w.decided), channel, client) == if Present(w.roster, channel, client) then 1 else 0)
    && multiset(w.decided) == multiset(w.sent) + multiset(w.pending)
    && multiset(Bare(w.decided)) == multiset(Bare(w.sent)) + multiset(Bare(w.pending))
  }

  ghost predicate Inv(w: World) {
    && Counted(w) && Announced(w)
    && forall g :: g in w.live ==> g in w.used
  }

  lemma AlternatesGrows(decided: seq<Announcement>, a: Announcement)
    requires Alternates(decided) && Balance(decided, a.channel, a.client) == if a.kind == Join then 0 else 1
    ensures Alternates(decided + [a])
  {
    assert (decided + [a])[..|decided|] == decided;
  }

  lemma BalanceGrows(decided: seq<Announcement>, a: Announcement, channel: string, client: string)
    ensures Balance(decided + [a], channel, client) ==
            Balance(decided, channel, client)
            + if (channel, client) != (a.channel, a.client) then 0 else if a.kind == Join then 1 else -1
  {
  }

  lemma BareGrows(events: seq<Tagged>, e: Tagged)
    ensures Bare(events + [e]) == Bare(events) + [e.1]
  {
  }

  /** A decision taken with the roster change that calls for it. */
  lemma DecideAnnounces(w: World, v: World, guard: nat, a: Announcement)
    requires Announced(w) && v.decided == w.decided && v.sent == w.sent && v.pending == w.pending
    requires Present(w.roster, a.channel, a.client) <==> a.kind == Leave
    requires Present(v.roster, a.channel, a.client) <==> a.kind == Join
    requires forall ch, cl :: (ch, cl) != (a.channel, a.client) ==> (Present(v.roster, ch, cl) <==> Present(w.roster, ch, cl))
    ensures Announced(Decide(v, guard, a))
  {
    hide Present, Alternates, Balance, Bare;
    var u := Decide(v, guard, a);
    AlternatesGrows(Bare(w.decided), a);
    BareGrows(w.pending, (guard, a));
    BareGrows(w.decided, (guard, a));
    assert multiset(u.decided) == multiset(w.decided) + multiset{(guard, a)};
    assert multiset(Bare(u.decided)) == multiset(Bare(w.decided)) + multiset{a};
    forall ch, cl
      ensures Balance(Bare(u.decided), ch, cl) == if Present(u.roster, ch, cl) then 1 else 0
    {
      BalanceGrows(Bare(w.decided), a, ch, cl);
    }
  }

  lemma Removed<T>(q: seq<T>, i: nat)
    requires i < |q|
    ensures multiset(q) == multiset(q[..i] + q[i + 1..]) + multiset{q[i]}
  {
    assert q == q[..i] + [q[i]] + q[i + 1..];
  }

  lemma BareWithout(p: seq<Tagged>, i: nat)
    requires i < |p|
    ensures multiset(Bare(p)) == multiset(Bare(p[..i] + p[i + 1..])) + multiset{p[i].1}
  {
    var q := Bare(p);
    assert Bare(p[..i] + p[i + 1..]) == q[..i] + q[i + 1..];
    Removed(q, i);
  }

  lemma MovedOver<T>(decided: multiset<T>, sent: multiset<T>, pending: multiset<T>, left: multiset<T>, e: T)
    requires decided == sent + pending && pending == left + multiset{e}
    ensures decided == (sent + multiset{e}) + left
  {
  }

  /** Sending one of the pending announcements. */
  lemma AnnounceKeeps(w: World, i: nat)
    requires Announced(w) && i < |w.pending|
    ensures Announced(Next(w, Announce(i)))
  {
    hide Present, Alternates, Balance, Bare;
    var e, left := w.pending[i], w.pending[..i] + w.pending[i + 1..];
    BareWithout(w.pending, i);
    BareGrows(w.sent, e);
    Removed(w.pending, i);
    assert multiset(w.sent + [e]) == multiset(w.sent) + multiset{e};
    assert multiset(Bare(w.sent) + [e.1]) == multiset(Bare(w.sent)) + multiset{e.1};
    MovedOver(multiset(w.decided), multiset(w.sent), multiset(w.pending), multiset(left), e);
    MovedOver(multiset(Bare(w.decided)), multiset(Bare(w.sent)), multiset(Bare(w.pending)), multiset(Bare(left)), e.1);
  }

  lemma ConnectAnnounces(w: World, a: Action)
    requires a.Connect? && Enabled(w, a) && Announced(w)
    ensures Announced(Next(w, a))
  {
    var v := w.(roster := Registered(w.roster, a.channel, a.client, a.now), live := w.live[a.guard := (a.channel, a.client)], used := w.used + {a.guard});
    assert forall ch, cl :: Present(v.roster, ch, cl) <==> Present(w.roster, ch, cl) || (ch, cl) == (a.channel, a.client);
    if !Present(w.roster, a.channel, a.client) {
      DecideAnnounces(w, v, a.guard, Announcement(a.channel, a.client, Join));
    }
  }

  lemma DisconnectAnnounces(w: World, a: Action)
    requires a.Disconnect? && Enabled(w, a) && Announced(w) && Counted(w)
    ensures Announced(Next(w, a))
  {
    var (channel, client) := w.live[a.guard];
    var v := w.(roster := Dropped(w.roster, channel, client), live := w.live - {a.guard});
    HoldingShrinks(w.live, a.guard, channel, client);
    assert Count(w.roster, channel, client) == |Holding(w.live, channel, client)|;
    hide Dropped, Holding, Alternates;
    forall ch, cl
      ensures Present(v.roster, ch, cl) <==>
              Present(w.roster, ch, cl) && ((ch, cl) != (channel, client) || Count(w.roster, channel, client) != 1)
    {
      DroppedCount(w.roster, channel, client, ch, cl);
    }
    if Count(w.roster, channel, client) == 1 {
      DecideAnnounces(w, v, a.guard, Announcement(channel, client, Leave));
    }
  }

  lemma StepKeeps(w: World, a: Action)
    requires Inv(w) && Enabled(w, a)
    ensures Inv(Next(w, a))
  {
    hide Counted, Announced;
    match a {
      case Connect(_, _, _, _) =>
        ConnectCounts(w, a);
        ConnectAnnounces(w, a);
      case Disconnect(_) =>
        DisconnectCounts(w, a);
        DisconnectAnnounces(w, a);
      case Announce(i) =>
        AnnounceKeeps(w, i);
        AnnounceCounts(w, i);
    }
  }

  lemma AnnounceCounts(w: World, i: nat)
    requires Counted(w) && i < |w.pending|
    ensures Counted(Next(w, Announce(i)))
  {
  }

  lemma {:induction false} RunsKeep(run: seq<Action>)
    requires Exec(run).Some?
    ensures Inv(Exec(run).value)
  {
    if run != [] {
      RunsKeep(run[..|run| - 1]);
      StepKeeps(Exec(run[..|run| - 1]).value, run[|run| - 1]);
    } else {
      var w := Exec(run).value;
      assert forall ch, cl :: Holding(w.live, ch, cl) == {};
    }
  }

  /** In every interleaving of connects, disconnects and sends: each count is the
      number of guards that hold it, stored counts are at least 1 and no channel is
      empty, so a drop always finds a count to take from; under the lock, joins and
      leaves of a client alternate; every decision is sent once; and when none is
      left to send, a client's joins exceed its leaves by 1 if it is present and by
      0 if not. */
  lemma PresenceCounts(run: seq<Action>)
    requires Exec(run).Some?
    ensures var w := Exec(run).value;
            && (forall ch, cl :: Count(w.roster, ch, cl) == |Holding(w.live, ch, cl)|)
            && (forall ch, cl :: Present(w.roster, ch, cl) <==> Holding(w.live, ch, cl) != {})
            && (forall ch :: ch in w.roster ==> w.roster[ch] != map[])
            && (forall g :: g in w.live ==> Count(w.roster, w.live[g].0, w.live[g].1) >= 1)
            && Alternates(Bare(w.decided))
            && multiset(w.decided) == multiset(w.sent) + multiset(w.pending)
            && (w.pending == [] ==>
                  forall ch, cl :: Balance(Bare(w.sent), ch, cl) == if Holding(w.live, ch, cl) != {} then 1 else 0)
  {
    RunsKeep(run);
    var w := Exec(run).value;
    hide Exec, Alternates, Holding;
    forall ch, cl
      ensures Present(w.roster, ch, cl) <==> Holding(w.live, ch, cl) != {}
    {
      assert Count(w.roster, ch, cl) == |Holding(w.live, ch, cl)|;
    }
    forall g | g in w.live
      ensures Count(w.roster, w.live[g].0, w.live[g].1) >= 1
    {
      var ch, cl := w.live[g].0, w.live[g].1;
      assert g in Holding(w.live, ch, cl);
    }
    if w.pending == [] {
      assert Bare(w.pending) == [];
      assert multiset(Bare(w.decided)) == multiset(Bare(w.sent));
    }
  }

  lemma ConnectionTime(w: World, a: Action, channel: string, client: string)
    requires Enabled(w, a) && Present(Next(w, a).roster, channel, client)
    ensures Next(w, a).roster[channel][client].connectedAt ==
            if Present(w.roster, channel, client) then w.roster[channel][client].connectedAt
            else if a.Connect? then a.now else 0
    ensures !Present(w.roster, channel, client) ==> a.Connect? && (a.channel, a.client) == (channel, client)
  {
  }

  /** The client is present after the run's first `from` steps and from then on. */
  ghost predicate PresentFrom(run: seq<Action>, from: nat, channel: string, client: string) {
    forall m :: from <= m <= |run| ==> Exec(run[..m]).Some? && Present(Exec(run[..m]).value.roster, channel, client)
  }

  /** On every run a present client's connection time is that of the connect since
      which it has been present. */
  lemma {:induction false} ConnectedSince(run: seq<Action>, channel: string, client: string) returns (k: nat)
    requires Exec(run).Some? && Present(Exec(run).value.roster, channel, client)
    ensures k < |run| && Exec(run[..k]).Some? && !Present(Exec(run[..k]).value.roster, channel, client)
    ensures run[k].Connect? && (run[k].channel, run[k].client) == (channel, client)
    ensures Exec(run).value.roster[channel][client].connectedAt == run[k].now
    ensures PresentFrom(run, k + 1, channel, client)
  {
    var n := |run| - 1;
    var front, last := run[..n], run[n];
    ConnectionTime(Exec(front).value, last, channel, client);
    hide Next, Enabled, Present, PresentFrom;
    if Present(Exec(front).value.roster, channel, client) {
      k := ConnectedSince(front, channel, client);
      assert front[..k] == run[..k];
      PresentLonger(run, k + 1, channel, client);
    } else {
      k := n;
      PresentNow(run, channel, client);
    }
  }

  lemma PresentNow(run: seq<Action>, channel: string, client: string)
    requires Exec(run).Some? && Present(Exec(run).value.roster, channel, client)
    ensures PresentFrom(run, |run|, channel, client)
  {
    hide Exec, Present;
    assert run[..|run|] == run;
  }

  lemma PresentLonger(run: seq<Action>, from: nat, channel: string, client: string)
    requires run != [] && from < |run| && PresentFrom(run[..|run| - 1], from, channel, client)
    requires Exec(run).Some? && Present(Exec(run).value.roster, channel, client)
    ensures PresentFrom(run, from, channel, client)
  {
    hide Exec, Present;
    var front := run[..|run| - 1];
    forall m | from <= m <= |run|
      ensures Exec(run[..m]).Some? && Present(Exec(run[..m]).value.roster, channel, client)
    {
      if m < |run| {
        assert run[..m] == front[..m];
      } else {
        assert run[..m] == run;
      }
    }
  }

  lemma ExecStep(run: seq<Action>, a: Action)
    requires Exec(run).Some? && Enabled(Exec(run).value, a)
    ensures Exec(run + [a]) == Some(Next(Exec(run).value, a))
  {
    assert (run + [a])[..|run|] == run;
  }

  // ---- The order of the sends -----------------------------------------------

  predicate Concerning(e: Tagged, channel: string, client: string) {
    e.1.channel == channel && e.1.client == client
  }

  /** The events of one client in one channel. */
  function Of(events: seq<Tagged>, channel: string, client: string): seq<Tagged> {
    if events == [] then []
    else
      var last := events[|events| - 1];
      Of(events[..|events| - 1], channel, client) + if Concerning(last, channel, client) then [last] else []
  }

  /** Some older announcement of the same client is still pending. */
  predicate Overtakes(pending: seq<Tagged>, i: nat, channel: string, client: string)
    requires i < |pending|
  {
    Concerning(pending[i], channel, client) && exists j :: 0 <= j < i && Concerning(pending[j], channel, client)
  }

  /** Every send of the client's announcements took its oldest pending one. */
  ghost predicate OldestFirst(run: seq<Action>, channel: string, client: string)
    requires Exec(run).Some?
  {
    run == [] ||
    var front, last := run[..|run| - 1], run[|run| - 1];
    OldestFirst(front, channel, client) && (last.Announce? ==> !Overtakes(Exec(front).value.pending, last.at, channel, client))
  }

  lemma {:induction false} OfConcat(a: seq<Tagged>, b: seq<Tagged>, channel: string, client: string)
    ensures Of(a + b, channel, client) == Of(a, channel, client) + Of(b, channel, client)
  {
    if b == [] {
      assert a + b == a && Of(a, channel, client) + [] == Of(a, channel, client);
    } else {
      var n := |b| - 1;
      assert (a + b)[..|a + b| - 1] == a + b[..n];
      OfConcat(a, b[..n], channel, client);
      var tail: seq<Tagged> := if Concerning(b[n], channel, client) then [b[n]] else [];
      Assoc(Of(a, channel, client), Of(b[..n], channel, client), tail);
    }
  }

  lemma OfOne(e: Tagged, channel: string, client: string)
    ensures Of([e], channel, client) == if Concerning(e, channel, client) then [e] else []
  {
    assert [e][..0] == [];
  }

  lemma {:induction false} OfNone(events: seq<Tagged>, channel: string, client: string)
    ensures Of(events, channel, client) == [] <==> forall j :: 0 <= j < |events| ==> !Concerning(events[j], channel, client)
  {
    if events != [] {
      OfNone(events[..|events| - 1], channel, client);
    }
  }

  lemma {:induction false} OfFrom(events: seq<Tagged>, channel: string, client: string, k: nat)
    requires k < |Of(events, channel, client)|
    ensures Of(events, channel, client)[k] in events
  {
    var n := |events| - 1;
    if k < |Of(events[..n], channel, client)| {
      OfFrom(events[..n], channel, client, k);
    }
  }

  /** A guard has at most one announcement pending. */
  predicate OneEach(w: World) {
    && (forall i, j :: 0 <= i < j < |w.pending| ==> w.pending[i].0 != w.pending[j].0)
    && (forall i :: 0 <= i < |w.pending| ==> w.pending[i].0 in w.used)
    && (forall g :: g in w.live ==> g in w.used)
  }

  lemma OneEachKept(w: World, a: Action)
    requires OneEach(w) && Enabled(w, a)
    ensures OneEach(Next(w, a))
  {
    hide Registered, Dropped, Present, Count;
  }

  lemma {:induction false} RunsHaveOneEach(run: seq<Action>)
    requires Exec(run).Some?
    ensures OneEach(Exec(run).value)
  {
    if run != [] {
      RunsHaveOneEach(run[..|run| - 1]);
      OneEachKept(Exec(run[..|run| - 1]).value, run[|run| - 1]);
    }
  }

  /** A send takes one of the client's pending announcements, the oldest or a
      later one, or leaves the client alone. */
  lemma PendingTaken(pending: seq<Tagged>, i: nat, channel: string, client: string)
    requires i < |pending| && forall j, k :: 0 <= j < k < |pending| ==> pending[j].0 != pending[k].0
    ensures var mine, left := Of(pending, channel, client), Of(pending[..i] + pending[i + 1..], channel, client);
            if !Concerning(pending[i], channel, client) then left == mine
            else if !Overtakes(pending, i, channel, client) then mine == [pending[i]] + left
            else mine != [] && mine[0] != pending[i] && |mine| == |left| + 1
  {
    hide *;
    var a, e, b := pending[..i], pending[i], pending[i + 1..];
    assert pending == a + [e] + b;
    OfConcat(a + [e], b, channel, client);
    OfConcat(a, [e], channel, client);
    OfConcat(a, b, channel, client);
    OfOne(e, channel, client);
    var before, after := Of(a, channel, client), Of(b, channel, client);
    if Concerning(e, channel, client) {
      Overtaken(pending, i, channel, client);
      Taken(before, e, after);
    } else {
      assert before + [] == before;
    }
  }

  lemma Taken<T>(before: seq<T>, e: T, after: seq<T>)
    ensures before == [] ==> before + [e] + after == [e] + (before + after)
    ensures before != [] ==> (before + [e] + after)[0] == before[0]
    ensures |before + [e] + after| == |before + after| + 1
  {
  }

  lemma Overtaken(pending: seq<Tagged>, i: nat, channel: string, client: string)
    requires i < |pending| && Concerning(pending[i], channel, client)
    requires forall j, k :: 0 <= j < k < |pending| ==> pending[j].0 != pending[k].0
    ensures var before := Of(pending[..i], channel, client);
            && (Overtakes(pending, i, channel, client) <==> before != [])
            && (before != [] ==> before[0] != pending[i])
  {
    var a := pending[..i];
    OfNone(a, channel, client);
    if Of(a, channel, client) != [] {
      OfFrom(a, channel, client, 0);
      var j :| 0 <= j < i && a[j] == Of(a, channel, client)[0];
      assert pending[j].0 != pending[i].0;
    }
  }

  /** What a client's decisions, sends and pending announcements have to do with
      each other, while the oldest goes first and after it once did not. */
  ghost predicate InStep(w: World, channel: string, client: string, orderly: bool) {
    var decided, sent, pending := Of(w.decided, channel, client), Of(w.sent, channel, client), Of(w.pending, channel, client);
    && |decided| == |sent| + |pending|
    && (if orderly then decided == sent + pending else !(sent <= decided))
  }

  lemma DecideInStep(w: World, guard: nat, a: Announcement, channel: string, client: string, orderly: bool)
    requires InStep(w, channel, client, orderly)
    ensures InStep(Decide(w, guard, a), channel, client, orderly)
  {
    var e := (guard, a);
    OfConcat(w.decided, [e], channel, client);
    OfConcat(w.pending, [e], channel, client);
    OfOne(e, channel, client);
    hide Of;
    var decided, sent, pending := Of(w.decided, channel, client), Of(w.sent, channel, client), Of(w.pending, channel, client);
    var more: seq<Tagged> := if Concerning(e, channel, client) then [e] else [];
    Assoc(sent, pending, more);
    PrefixStays(sent, decided, more);
  }

  lemma PrefixStays<T>(a: seq<T>, b: seq<T>, more: seq<T>)
    requires |a| <= |b|
    ensures a <= b + more ==> a <= b
  {
    assert (b + more)[..|a|] == b[..|a|];
  }

  lemma PrefixShrinks<T>(a: seq<T>, e: T, b: seq<T>)
    ensures a + [e] <= b ==> a <= b && a != b && b[|a|] == e
  {
    assert (a + [e])[|a|] == e;
  }

  lemma AnnounceInStep(w: World, i: nat, channel: string, client: string, orderly: bool)
    requires InStep(w, channel, client, orderly) && OneEach(w) && i < |w.pending|
    ensures InStep(Next(w, Announce(i)), channel, client, orderly && !Overtakes(w.pending, i, channel, client))
  {
    var e := w.pending[i];
    PendingTaken(w.pending, i, channel, client);
    OfConcat(w.sent, [e], channel, client);
    OfOne(e, channel, client);
    hide Of, Overtakes, OneEach;
    var decided, sent, pending := Of(w.decided, channel, client), Of(w.sent, channel, client), Of(w.pending, channel, client);
    if Concerning(e, channel, client) {
      PrefixShrinks(sent, e, decided);
      if orderly && Overtakes(w.pending, i, channel, client) {
        assert decided[|sent|] == pending[0];
      } else if orderly {
        Assoc(sent, [e], Of(w.pending[..i] + w.pending[i + 1..], channel, client));
      }
    } else {
      assert sent + [] == sent;
    }
  }

  lemma {:induction false} RunsInStep(run: seq<Action>, channel: string, client: string)
    requires Exec(run).Some?
    ensures InStep(Exec(run).value, channel, client, OldestFirst(run, channel, client))
  {
    if run != [] {
      var front, last := run[..|run| - 1], run[|run| - 1];
      RunsInStep(front, channel, client);
      RunsHaveOneEach(front);
      var w := Exec(front).value;
      var orderly := OldestFirst(front, channel, client);
      hide InStep, OneEach, Registered, Dropped, Present, Count;
      match last {
        case Connect(g, ch, cl, now) =>
          var v := w.(roster := Registered(w.roster, ch, cl, now), live := w.live[g := (ch, cl)], used := w.used + {g});
          SameEvents(w, v, channel, client, orderly);
          DecideInStep(v, g, Announcement(ch, cl, Join), channel, client, orderly);
        case Disconnect(g) =>
          var (ch, cl) := w.live[g];
          var v := w.(roster := Dropped(w.roster, ch, cl), live := w.live - {g});
          SameEvents(w, v, channel, client, orderly);
          DecideInStep(v, g, Announcement(ch, cl, Leave), channel, client, orderly);
        case Announce(i) =>
          AnnounceInStep(w, i, channel, client, orderly);
      }
    }
  }

  lemma SameEvents(w: World, v: World, channel: string, client: string, orderly: bool)
    requires InStep(w, channel, client, orderly)
    requires v.decided == w.decided && v.sent == w.sent && v.pending == w.pending
    ensures InStep(v, channel, client, orderly)
  {
  }

  /** A client's announcements are broadcast in the order of the lock if and only
      if every send of one of them took the oldest still pending. */
  lemma InLockOrderExactlyWhen(run: seq<Action>, channel: string, client: string)
    requires Exec(run).Some?
    ensures var w := Exec(run).value;
            Of(w.sent, channel, client) <= Of(w.decided, channel, client) <==> OldestFirst(run, channel, client)
  {
    RunsInStep(run, channel, client);
    hide Of, OldestFirst, Exec;
  }

  lemma {:induction false} LastDecides(decided: seq<Tagged>, channel: string, client: string)
    requires Alternates(Bare(decided))
    ensures var mine := Of(decided, channel, client);
            Balance(Bare(decided), channel, client) == if mine != [] && mine[|mine| - 1].1.kind == Join then 1 else 0
  {
    if decided != [] {
      var n := |decided| - 1;
      var front, last := decided[..n], decided[n];
      assert decided == front + [last];
      BareGrows(front, last);
      assert Bare(decided)[..n] == Bare(front);
      LastDecides(front, channel, client);
      hide Balance, Bare;
      BalanceGrows(Bare(front), last.1, channel, client);
    }
  }

  /** Then, once nothing is left to send, a client's last broadcast tells whether
      it is present. */
  lemma LastBroadcastTells(run: seq<Action>, channel: string, client: string)
    requires Exec(run).Some? && OldestFirst(run, channel, client) && Of(Exec(run).value.pending, channel, client) == []
    ensures var w := Exec(run).value;
            var mine := Of(w.sent, channel, client);
            && mine == Of(w.decided, channel, client)
            && (Present(w.roster, channel, client) <==> mine != [] && mine[|mine| - 1].1.kind == Join)
  {
    hide *;
    RunsKeep(run);
    RunsInStep(run, channel, client);
    var w := Exec(run).value;
    AnnouncedParts(w, channel, client);
    LastDecides(w.decided, channel, client);
    InStepParts(w, channel, client);
  }

  lemma AnnouncedParts(w: World, channel: string, client: string)
    requires Inv(w)
    ensures Alternates(Bare(w.decided))
    ensures Balance(Bare(w.decided), channel, client) == if Present(w.roster, channel, client) then 1 else 0
  {
    hide Counted, Alternates, Bare, Balance, Present;
  }

  lemma InStepParts(w: World, channel: string, client: string)
    requires InStep(w, channel, client, true) && Of(w.pending, channel, client) == []
    ensures Of(w.sent, channel, client) == Of(w.decided, channel, client)
  {
    hide Of;
    assert Of(w.sent, channel, client) + [] == Of(w.sent, channel, client);
  }

  // ---- Sends may overtake each other ----------------------------------------

  const FIRST := (1, Announcement("room", "ann", Join))
  const GONE := (1, Announcement("room", "ann", Leave))
  const BACK := (2, Announcement("room", "ann", Join))
  const ANN := ("room", "ann")
  const ANN_HERE: Roster := map["room" := map["ann" := Entry(0, 1)]]

  /** Ann connects, is announced, disconnects, and connects again before her
      leave is sent; her second join is sent first, then the leave. */
  const OVERTAKING: seq<Action> :=
    [Connect(1, "room", "ann", 0), Announce(0), Disconnect(1), Connect(2, "room", "ann", 0), Announce(1), Announce(0)]

  function Scene(i: nat): World {
    if i == 0 then World(map[], map[], [], [], [], {})
    else if i == 1 then World(ANN_HERE, map[1 := ANN], [FIRST], [FIRST], [], {1})
    else if i == 2 then World(ANN_HERE, map[1 := ANN], [], [FIRST], [FIRST], {1})
    else if i == 3 then World(map[], map[], [GONE], [FIRST, GONE], [FIRST], {1})
    else if i == 4 then World(ANN_HERE, map[2 := ANN], [GONE, BACK], [FIRST, GONE, BACK], [FIRST], {1, 2})
    else if i == 5 then World(ANN_HERE, map[2 := ANN], [GONE], [FIRST, GONE, BACK], [FIRST, BACK], {1, 2})
    else World(ANN_HERE, map[2 := ANN], [], [FIRST, GONE, BACK], [FIRST, BACK, GONE], {1, 2})
  }

  lemma RosterOfOne()
    ensures !Present(map[], "room", "ann") && Present(ANN_HERE, "room", "ann")
    ensures Registered(map[], "room", "ann", 0) == ANN_HERE
    ensures Count(ANN_HERE, "room", "ann") == 1
    ensures Dropped(ANN_HERE, "room", "ann") == map[]
  {
    assert map["ann" := Entry(0, 1)] - {"ann"} == map[];
    assert ANN_HERE - {"room"} == map[];
  }

  lemma SceneStep(i: nat)
    requires i < 6
    ensures Enabled(Scene(i), OVERTAKING[i]) && Next(Scene(i), OVERTAKING[i]) == Scene(i + 1)
  {
    RosterOfOne();
    hide Registered, Dropped, Present, Count;
    var none: map<nat, (string, string)> := map[];
    var w := Scene(i);
    if i == 0 {
      assert none[1 := ANN] == map[1 := ANN] && {} + {1} == {1};
      assert w.pending + [FIRST] == [FIRST] && w.decided + [FIRST] == [FIRST];
    } else if i == 1 {
      assert w.pending[..0] + w.pending[1..] == [] && w.sent + [FIRST] == [FIRST];
    } else if i == 2 {
      assert map[1 := ANN] - {1} == none;
      assert w.pending + [GONE] == [GONE] && w.decided + [GONE] == [FIRST, GONE];
    } else if i == 3 {
      assert none[2 := ANN] == map[2 := ANN] && {1} + {2} == {1, 2};
      assert w.pending + [BACK] == [GONE, BACK] && w.decided + [BACK] == [FIRST, GONE, BACK];
    } else if i == 4 {
      assert w.pending[..1] + w.pending[2..] == [GONE] && w.sent + [BACK] == [FIRST, BACK];
    } else {
      assert w.pending[..0] + w.pending[1..] == [] && w.sent + [GONE] == [FIRST, BACK, GONE];
    }
  }

  lemma {:induction false} SceneReached(i: nat)
    requires i <= 6
    ensures Exec(OVERTAKING[..i]) == Some(Scene(i))
  {
    if i > 0 {
      SceneReached(i - 1);
      SceneStep(i - 1);
      assert OVERTAKING[..i] == OVERTAKING[..i - 1] + [OVERTAKING[i - 1]];
      hide Scene, Next, Enabled;
      ExecStep(OVERTAKING[..i - 1], OVERTAKING[i - 1]);
    }
  }

  /** What was broadcast last says that Ann has left, although she is present and
      nothing is left to send. */
  lemma LeaveOvertaken()
    ensures Exec(OVERTAKING).Some?
    ensures var w := Exec(OVERTAKING).value;
            w.pending == [] && Present(w.roster, "room", "ann") && w.decided == [FIRST, GONE, BACK] && w.sent == [FIRST, BACK, GONE]
  {
    SceneReached(6);
    RosterOfOne();
    assert OVERTAKING[..6] == OVERTAKING;
  }

  // ---- The channel's event stream -------------------------------------------

  datatype Body = Message(data: Json) | PresenceOf(kind: Kind)

  datatype PubSub = PubSub(channel: string, client: string, ts: int, body: Body)

  /** What `recv` gives: an event, or word that some were dropped. */
  datatype Received = Event(ev: PubSub) | Lagged

  predicate Concerns(r: Received, channel: string, client: string) {
    r.Event? && r.ev.channel == channel && r.ev.client != client
  }

  /** The received events of others in the channel, in order. */
  ghost predicate Forwarded(rs: seq<Received>, channel: string, client: string, out: seq<PubSub>, at: seq<nat>) {
    && |at| == |out|
    && (forall i, j :: 0 <= i < j < |at| ==> at[i] < at[j])
    && (forall i :: 0 <= i < |at| ==> at[i] < |rs| && Concerns(rs[at[i]], channel, client) && rs[at[i]].ev == out[i])
    && (forall k :: 0 <= k < |rs| && Concerns(rs[k], channel, client) ==> k in at)
  }

  lemma ForwardedGrows(rs: seq<Received>, r: Received, channel: string, client: string, out: seq<PubSub>, at: seq<nat>)
    requires Forwarded(rs, channel, client, out, at)
    ensures if Concerns(r, channel, client) then Forwarded(rs + [r], channel, client, out + [r.ev], at + [|rs|])
            else Forwarded(rs + [r], channel, client, out, at)
  {
    var more := rs + [r];
    assert forall k :: 0 <= k < |rs| ==> more[k] == rs[k];
    if Concerns(r, channel, client) {
      var there := at + [|rs|];
      forall k | 0 <= k < |more| && Concerns(more[k], channel, client)
        ensures k in there
      {
        if k == |rs| {
          assert there[|at|] == k;
        } else {
          var i :| 0 <= i < |at| && at[i] == k;
          assert there[i] == k;
        }
      }
    }
  }

  /** A subscriber gets every event it receives from others in its channel, once
      and in order, and never its own. */
  method EventStream(rs: seq<Received>, channel: string, client: string) returns (out: seq<PubSub>)
    ensures exists at :: Forwarded(rs, channel, client, out, at)
    ensures forall ev :: ev in out <==> Event(ev) in rs && ev.channel == channel && ev.client != client
  {
    out := [];
    ghost var at: seq<nat> := [];
    assert Forwarded(rs[..0], channel, client, out, at);
    hide Forwarded;
    for i := 0 to |rs|
      invariant Forwarded(rs[..i], channel, client, out, at)
    {
      ForwardedGrows(rs[..i], rs[i], channel, client, out, at);
      assert rs[..i + 1] == rs[..i] + [rs[i]];
      match rs[i] {
        case Event(ev) =>
          if ev.channel == channel && ev.client != client {
            out := out + [ev];
            at := at + [i];
          }
        case Lagged =>
      }
    }
    assert rs[..|rs|] == rs;
    ForwardedEvents(rs, channel, client, out, at);
  }

  lemma ForwardedEvents(rs: seq<Received>, channel: string, client: string, out: seq<PubSub>, at: seq<nat>)
    requires Forwarded(rs, channel, client, out, at)
    ensures forall ev :: ev in out <==> Event(ev) in rs && ev.channel == channel && ev.client != client
  {
    forall ev | ev in out
      ensures Event(ev) in rs && ev.channel == channel && ev.client != client
    {
      var i :| 0 <= i < |out| && out[i] == ev;
      assert rs[at[i]] == Event(ev);
    }
    forall ev | Event(ev) in rs && ev.channel == channel && ev.client != client
      ensures ev in out
    {
      var k :| 0 <= k < |rs| && rs[k] == Event(ev);
      assert Concerns(rs[k], channel, client) && k in at;
      var i :| 0 <= i < |at| && at[i] == k;
      assert out[i] == ev;
    }
  }
}
