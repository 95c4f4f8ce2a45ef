/** The in-memory registry and alert bus of backend/app.py, without the web
    framework: each request handler is a state transition of AppState. */
module Server {
  import opened Wrappers
  import opened JsonValue
  import opened Anomaly
  import Geofence
  import HashChain

  /** A connected dashboard WebSocket. */
  type ClientId = nat

  /** A `{"lat": .., "lng": ..}` location as the requests carry it. */
  datatype Loc = Loc(lat: Float, lng: Float)

  /** The dictionary stored in TOURISTS for one tourist. */
  datatype Tourist = Tourist(
    id: string,
    name: string,
    emergencyContact: string,
    itinerary: seq<Loc>,
    lastLocation: Option<Loc>,
    lastUpdate: Option<Float>,
    safetyScore: int,
    active: bool)

  /** The dictionary appended to ALERTS. */
  datatype Alert = Alert(kind: string, touristId: string, name: string, location: Loc, ts: Float, msg: string)

  /** `{"ok": true}`, or the 404 response `{"error": "invalid tourist_id"}`. */
  datatype Reply = Ok | InvalidTourist

  /** The response of `/register`. */
  datatype Registration = Registration(touristId: string, ledgerHash: string)

  /** What a handler did, in the order it did it (a ghost trace). */
  datatype Effect = Raised(alert: Alert) | Recorded(entry: Json)

  const BaselineSafetyScore: int := 80
  /** The `threshold_km` that `/location` passes to `deviation_from_route`. */
  const RouteThresholdKm: real := 3.0
  const ReplayWindow: nat := 50

  // ---------------------------------------------------------------------------
  // Alerts and ledger payloads

  /** The point a location denotes, as the classifiers see it. */
  function AsPoint(l: Loc): Point {
    Point(Value(l.lat), Value(l.lng))
  }

  /** The planned points handed to `deviation_from_route`. */
  function Route(itinerary: seq<Loc>): (r: seq<Point>)
    ensures |r| == |itinerary| && forall i :: 0 <= i < |r| ==> r[i] == AsPoint(itinerary[i])
  {
    seq(|itinerary|, i requires 0 <= i < |itinerary| => AsPoint(itinerary[i]))
  }

  function GeofenceAlert(t: Tourist, p: Loc, now: Float): Alert {
    Alert("GEOFENCE", t.id, t.name, p, now, "Entered high-risk zone")
  }

  function DeviationAlert(t: Tourist, p: Loc, now: Float): Alert {
    Alert("DEVIATION", t.id, t.name, p, now, "Deviated from planned route")
  }

  function PanicAlert(t: Tourist, p: Loc, now: Float): Alert {
    Alert("PANIC", t.id, t.name, p, now, "PANIC button pressed")
  }

  function LocJson(p: Loc): Json {
    JObj(map["lat" := JNum(p.lat), "lng" := JNum(p.lng)])
  }

  function RegisterEntry(touristId: string, kycHash: string): Json {
    JObj(map["event" := JStr("REGISTER"), "tourist_id" := JStr(touristId), "kyc_hash" := JStr(kycHash)])
  }

  function EventEntry(event: string, touristId: string, p: Loc): Json {
    JObj(map["event" := JStr(event), "tourist_id" := JStr(touristId), "loc" := LocJson(p)])
  }

  /** The ledger file after appending `entries` in order, all at time `ts`. */
  function AppendAll(c: HashChain.Codec, f: string, ts: Float, entries: seq<Json>): string
    decreases |entries|
  {
    if entries == [] then f
    else AppendAll(c, HashChain.Appended(c, f, HashChain.Op(ts, entries[0])), ts, entries[1..])
  }

  // ---------------------------------------------------------------------------
  // The client list

  /** The clients whose send succeeded, in their original order. */
  function Surviving(clients: seq<ClientId>, failing: set<ClientId>): (r: seq<ClientId>)
    ensures forall x :: x in r <==> x in clients && x !in failing
    ensures |r| <= |clients|
  {
    if clients == [] then []
    else (if clients[0] in failing then [] else [clients[0]]) + Surviving(clients[1..], failing)
  }

  /** `to_remove`: the clients whose send failed, in their original order. */
  function Failed(clients: seq<ClientId>, failing: set<ClientId>): (r: seq<ClientId>)
    ensures forall x :: x in r <==> x in clients && x in failing
    ensures |r| <= |clients|
  {
    if clients == [] then []
    else (if clients[0] in failing then [clients[0]] else []) + Failed(clients[1..], failing)
  }

  function IndexOf(s: seq<ClientId>, x: ClientId): (i: nat)
    requires x in s
    ensures i < |s| && s[i] == x && x !in s[..i]
  {
    if s[0] == x then 0 else 1 + IndexOf(s[1..], x)
  }

  /** `list.remove(x)`: drop the first occurrence of `x`. */
  function RemoveFirst(s: seq<ClientId>, x: ClientId): (r: seq<ClientId>)
    ensures x !in s ==> r == s
    ensures x in s ==> r == s[..IndexOf(s, x)] + s[IndexOf(s, x) + 1..]
  {
    if s == [] then []
    else if s[0] == x then s[1..]
    else
      var t := s[1..];
      assert x in t ==> IndexOf(s, x) == IndexOf(t, x) + 1;
      assert x in t ==> s[..IndexOf(t, x) + 1] == [s[0]] + t[..IndexOf(t, x)];
      assert x in t ==> s[IndexOf(t, x) + 2..] == t[IndexOf(t, x) + 1..];
      [s[0]] + RemoveFirst(t, x)
  }

  /** The second loop of `broadcast_alert`: remove each listed client that is still present. */
  function RemoveEach(s: seq<ClientId>, rem: seq<ClientId>): (r: seq<ClientId>)
    ensures |s| - |rem| <= |r| <= |s|
    ensures forall x :: x in r ==> x in s
  {
    if rem == [] then s
    else
      var r := RemoveEach(s, rem[..|rem| - 1]);
      var x := rem[|rem| - 1];
      if x in r then RemoveFirst(r, x) else r
  }

  /** `ALERTS[-50:]`: the last fifty alerts, or all of them when there are fewer. */
  function Window(alerts: seq<Alert>): (w: seq<Alert>)
    ensures |w| == if |alerts| < ReplayWindow then |alerts| else ReplayWindow
    ensures forall k :: 0 <= k < |w| ==> w[k] == alerts[|alerts| - |w| + k]
  {
    if |alerts| <= ReplayWindow then alerts else alerts[|alerts| - ReplayWindow..]
  }

  lemma {:induction false} FailedSnoc(s: seq<ClientId>, x: ClientId, failing: set<ClientId>)
    ensures Failed(s + [x], failing) == Failed(s, failing) + (if x in failing then [x] else [])
  {
    if s == [] {
      assert s + [x] == [x];
      assert [x][1..] == [];
    } else {
      var h := if s[0] in failing then [s[0]] else [];
      var tail := if x in failing then [x] else [];
      assert (s + [x])[0] == s[0];
      assert (s + [x])[1..] == s[1..] + [x];
      FailedSnoc(s[1..], x, failing);
      assert Failed(s + [x], failing) == h + (Failed(s[1..], failing) + tail);
      assert h + (Failed(s[1..], failing) + tail) == (h + Failed(s[1..], failing)) + tail;
    }
  }

  lemma {:induction false} RemoveEachKeepsHead(y: ClientId, u: seq<ClientId>, rem: seq<ClientId>)
    requires y !in rem
    ensures RemoveEach([y] + u, rem) == [y] + RemoveEach(u, rem)
  {
    if rem != [] {
      var init := rem[..|rem| - 1];
      assert forall z :: z in init ==> z in rem;
      RemoveEachKeepsHead(y, u, init);
    }
  }

  lemma {:induction false} RemoveEachDropsHead(y: ClientId, t: seq<ClientId>, rem: seq<ClientId>)
    ensures RemoveEach([y] + t, [y] + rem) == RemoveEach(t, rem)
  {
    if rem == [] {
      assert ([y] + rem)[..0] == [];
    } else {
      var init := rem[..|rem| - 1];
      assert ([y] + rem)[..|[y] + rem| - 1] == [y] + init;
      RemoveEachDropsHead(y, t, init);
    }
  }

  /** Removing the collected failures leaves exactly the surviving clients. */
  lemma {:induction false} PruneFailed(s: seq<ClientId>, failing: set<ClientId>)
    ensures RemoveEach(s, Failed(s, failing)) == Surviving(s, failing)
  {
    if s != [] {
      var y, t := s[0], s[1..];
      assert s == [y] + t;
      PruneFailed(t, failing);
      if y in failing {
        assert Failed(s, failing) == [y] + Failed(t, failing);
        assert Surviving(s, failing) == Surviving(t, failing);
        RemoveEachDropsHead(y, t, Failed(t, failing));
      } else {
        assert Failed(s, failing) == Failed(t, failing);
        assert Surviving(s, failing) == [y] + Surviving(t, failing);
        RemoveEachKeepsHead(y, t, Failed(t, failing));
      }
    }
  }

  /** Pruning twice with the same failures prunes nothing more. */
  lemma {:induction false} SurvivingIdempotent(s: seq<ClientId>, failing: set<ClientId>)
    ensures Surviving(Surviving(s, failing), failing) == Surviving(s, failing)
  {
    if s != [] {
      var rest := Surviving(s[1..], failing);
      SurvivingIdempotent(s[1..], failing);
      if s[0] !in failing {
        assert Surviving(s, failing) == [s[0]] + rest;
        assert ([s[0]] + rest)[0] == s[0];
        assert ([s[0]] + rest)[1..] == rest;
      } else {
        assert Surviving(s, failing) == rest;
      }
    }
  }

  /** A detach removes one connection of that client and affects no other client. */
  lemma RemoveFirstKeepsOthers(s: seq<ClientId>, x: ClientId)
    ensures forall y :: y != x ==> multiset(RemoveFirst(s, x))[y] == multiset(s)[y]
    ensures x in s ==> multiset(RemoveFirst(s, x))[x] == multiset(s)[x] - 1
  {
    if x in s {
      var i := IndexOf(s, x);
      var pre, post := s[..i], s[i + 1..];
      assert s == pre + [x] + post;
      assert multiset(s) == multiset(pre) + multiset{x} + multiset(post);
      assert multiset(RemoveFirst(s, x)) == multiset(pre) + multiset(post);
    }
  }

  /** The first loop of `broadcast_alert`: collect the clients whose send fails. */
  method CollectFailed(clients: seq<ClientId>, failing: set<ClientId>) returns (toRemove: seq<ClientId>)
    ensures toRemove == Failed(clients, failing)
  {
    toRemove := [];
    var i := 0;
    while i < |clients|
      invariant 0 <= i <= |clients|
      invariant toRemove == Failed(clients[..i], failing)
    {
      FailedSnoc(clients[..i], clients[i], failing);
      assert clients[..i + 1] == clients[..i] + [clients[i]];
      if clients[i] in failing {
        toRemove := toRemove + [clients[i]];
      }
      i := i + 1;
    }
    assert clients[..i] == clients;
  }

  /** The second loop of `broadcast_alert`: remove each collected client that is still listed. */
  method RemovePresent(clients: seq<ClientId>, toRemove: seq<ClientId>) returns (rest: seq<ClientId>)
    ensures rest == RemoveEach(clients, toRemove)
  {
    rest := clients;
    var k := 0;
    while k < |toRemove|
      invariant 0 <= k <= |toRemove|
      invariant rest == RemoveEach(clients, toRemove[..k])
    {
      assert toRemove[..k + 1][..k] == toRemove[..k];
      var ws := toRemove[k];
      if ws in rest {
        rest := RemoveFirst(rest, ws);
      }
      k := k + 1;
    }
    assert toRemove[..k] == toRemove;
  }

  // ---------------------------------------------------------------------------
  // The application state

  class AppState {
    /** TOURISTS, ALERTS and DASHBOARD_CLIENTS. */
    var tourists: map<string, Tourist>
    var alerts: seq<Alert>
    var clients: seq<ClientId>
    ghost var history: seq<Effect>
    /** The ledger file and the distance used by the route check. */
    const ledger: HashChain.LedgerFile
    const dist: Distance

    ghost predicate Valid()
      reads this, ledger
    {
      ledger.Valid()
    }

    constructor (ledger: HashChain.LedgerFile, dist: Distance)
      requires ledger.Valid()
      ensures Valid() && this.ledger == ledger && this.dist == dist
      ensures tourists == map[] && alerts == [] && clients == [] && history == []
    {
      this.ledger := ledger;
      this.dist := dist;
      tourists := map[];
      alerts := [];
      clients := [];
      history := [];
    }

    /** `broadcast_alert`: record the alert, schedule a send to every client,
        and drop the clients whose send could not be scheduled. */
    method BroadcastAlert(alert: Alert, failing: set<ClientId>)
      modifies this`alerts, this`clients, this`history
      ensures alerts == old(alerts) + [alert]
      ensures clients == Surviving(old(clients), failing)
      ensures history == old(history) + [Raised(alert)]
    {
      alerts := alerts + [alert];
      history := history + [Raised(alert)];
      var toRemove := CollectFailed(clients, failing);
      clients := RemovePresent(clients, toRemove);
      PruneFailed(old(clients), failing);
    }

    /** The step `/location` and `/panic` take for each alert: broadcast it,
        then append its ledger entry. */
    method RaiseAndRecord(alert: Alert, entry: Json, now: Float, failing: set<ClientId>)
      requires Valid()
      modifies this`alerts, this`clients, this`history, ledger
      ensures Valid()
      ensures alerts == old(alerts) + [alert] && clients == Surviving(old(clients), failing)
      ensures ledger.present
      ensures ledger.data == HashChain.Appended(ledger.codec, old(ledger.data), HashChain.Op(now, entry))
      ensures history == old(history) + [Raised(alert), Recorded(entry)]
    {
      BroadcastAlert(alert, failing);
      var _ := ledger.Append(now, entry);
      history := history + [Recorded(entry)];
    }

    /** `/register`: store a new tourist under the fresh id and record the KYC hash. */
    method Register(touristId: string, name: string, kycHash: string, emergencyContact: string,
                    itinerary: seq<Loc>, now: Float) returns (reg: Registration)
      requires Valid()
      modifies this`tourists, this`history, ledger
      ensures Valid()
      ensures tourists == old(tourists)[touristId :=
        Tourist(touristId, name, emergencyContact, itinerary, None, None, BaselineSafetyScore, true)]
      ensures touristId !in old(tourists) ==> |tourists| == |old(tourists)| + 1
      ensures ledger.present
      ensures ledger.data == HashChain.Appended(ledger.codec, old(ledger.data), HashChain.Op(now, RegisterEntry(touristId, kycHash)))
      ensures reg == Registration(touristId,
        HashChain.NewRecord(ledger.codec, old(ledger.data), now, RegisterEntry(touristId, kycHash)).hash)
      ensures history == old(history) + [Recorded(RegisterEntry(touristId, kycHash))]
    {
      tourists := tourists[touristId :=
        Tourist(touristId, name, emergencyContact, itinerary, None, None, BaselineSafetyScore, true)];
      var entry := ledger.Append(now, RegisterEntry(touristId, kycHash));
      history := history + [Recorded(RegisterEntry(touristId, kycHash))];
      reg := Registration(touristId, entry.hash);
    }

    /** `/location`: move a known tourist, then raise a geofence alert and a
        route-deviation alert when the checks fire, each before its ledger entry. */
    method UpdateLocation(touristId: string, lat: Float, lng: Float, now: Float, failing: set<ClientId>)
      returns (reply: Reply)
      requires Valid()
      modifies this`tourists, this`alerts, this`clients, this`history, ledger
      ensures Valid()
      ensures touristId !in old(tourists) ==>
        reply == InvalidTourist && tourists == old(tourists) && alerts == old(alerts) && clients == old(clients)
        && history == old(history) && ledger.data == old(ledger.data) && ledger.present == old(ledger.present)
      ensures touristId in old(tourists) ==>
        var p := Loc(lat, lng);
        var t := old(tourists)[touristId].(lastLocation := Some(p), lastUpdate := Some(now));
        var geo := Geofence.InHighRiskZone(Value(lat), Value(lng));
        var dev := DeviationFromRoute(dist, AsPoint(p), Route(t.itinerary), RouteThresholdKm);
        var geoEntries := if geo then [EventEntry("GEOFENCE_ALERT", t.id, p)] else [];
        var devEntries := if dev then [EventEntry("ROUTE_DEVIATION", t.id, p)] else [];
        reply == Ok
        && tourists == old(tourists)[touristId := t]
        && alerts == old(alerts) + (if geo then [GeofenceAlert(t, p, now)] else [])
                                 + (if dev then [DeviationAlert(t, p, now)] else [])
        && clients == (if geo || dev then Surviving(old(clients), failing) else old(clients))
        && ledger.data == AppendAll(ledger.codec, old(ledger.data), now, geoEntries + devEntries)
        && ledger.present == (old(ledger.present) || geo || dev)
        && history == old(history)
             + (if geo then [Raised(GeofenceAlert(t, p, now)), Recorded(geoEntries[0])] else [])
             + (if dev then [Raised(DeviationAlert(t, p, now)), Recorded(devEntries[0])] else [])
    {
      if touristId !in tourists {
        return InvalidTourist;
      }
      var p := Loc(lat, lng);
      var t := tourists[touristId].(lastLocation := Some(p), lastUpdate := Some(now));
      tourists := tourists[touristId := t];
      ghost var f0, c0 := ledger.data, clients;
      var geo := Geofence.InHighRiskZone(Value(lat), Value(lng));
      if geo {
        RaiseAndRecord(GeofenceAlert(t, p, now), EventEntry("GEOFENCE_ALERT", t.id, p), now, failing);
      }
      ghost var f1 := ledger.data;
      var dev := DeviationFromRoute(dist, AsPoint(p), Route(t.itinerary), RouteThresholdKm);
      if dev {
        RaiseAndRecord(DeviationAlert(t, p, now), EventEntry("ROUTE_DEVIATION", t.id, p), now, failing);
        if geo {
          SurvivingIdempotent(c0, failing);
        }
      }
      LedgerSteps(ledger.codec, f0, f1, ledger.data, now, geo, dev, t.id, p);
      return Ok;
    }

    /** `/panic`: for a known tourist, one PANIC alert and then one PANIC ledger
        entry; the tourist record is left alone. */
    method Panic(touristId: string, lat: Float, lng: Float, now: Float, failing: set<ClientId>)
      returns (reply: Reply)
      requires Valid()
      modifies this`alerts, this`clients, this`history, ledger
      ensures Valid()
      ensures touristId !in tourists ==>
        reply == InvalidTourist && alerts == old(alerts) && clients == old(clients)
        && history == old(history) && ledger.data == old(ledger.data) && ledger.present == old(ledger.present)
      ensures touristId in tourists ==>
        var t := tourists[touristId];
        var p := Loc(lat, lng);
        reply == Ok
        && alerts == old(alerts) + [PanicAlert(t, p, now)]
        && clients == Surviving(old(clients), failing)
        && ledger.data == HashChain.Appended(ledger.codec, old(ledger.data), HashChain.Op(now, EventEntry("PANIC", t.id, p)))
        && ledger.present
        && history == old(history) + [Raised(PanicAlert(t, p, now)), Recorded(EventEntry("PANIC", t.id, p))]
    {
      if touristId !in tourists {
        return InvalidTourist;
      }
      var t := tourists[touristId];
      var p := Loc(lat, lng);
      RaiseAndRecord(PanicAlert(t, p, now), EventEntry("PANIC", t.id, p), now, failing);
      return Ok;
    }

    /** The attach step of `/ws/alerts`: register the dashboard and send it the
        recent alerts. */
    method Attach(ws: ClientId) returns (backlog: seq<Alert>)
      modifies this`clients
      ensures clients == old(clients) + [ws]
      ensures backlog == Window(alerts)
    {
      clients := clients + [ws];
      backlog := Window(alerts);
    }

    /** The `finally` step of `/ws/alerts`: forget the dashboard if still present. */
    method Detach(ws: ClientId)
      modifies this`clients
      ensures clients == RemoveFirst(old(clients), ws)
    {
      if ws in clients {
        clients := RemoveFirst(clients, ws);
      }
    }
  }

  /** The ledger text after the two optional appends of `/location`. */
  lemma LedgerSteps(c: HashChain.Codec, f0: string, f1: string, f2: string, now: Float,
                    geo: bool, dev: bool, id: string, p: Loc)
    requires f1 == if geo then HashChain.Appended(c, f0, HashChain.Op(now, EventEntry("GEOFENCE_ALERT", id, p))) else f0
    requires f2 == if dev then HashChain.Appended(c, f1, HashChain.Op(now, EventEntry("ROUTE_DEVIATION", id, p))) else f1
    ensures f2 == AppendAll(c, f0, now,
      (if geo then [EventEntry("GEOFENCE_ALERT", id, p)] else [])
      + (if dev then [EventEntry("ROUTE_DEVIATION", id, p)] else []))
  {
    var g := if geo then [EventEntry("GEOFENCE_ALERT", id, p)] else [];
    var d := if dev then [EventEntry("ROUTE_DEVIATION", id, p)] else [];
    if geo {
      assert (g + d)[0] == g[0];
      assert (g + d)[1..] == d;
      assert AppendAll(c, f0, now, g + d) == AppendAll(c, f1, now, d);
    } else {
      assert g + d == d;
    }
    if dev {
      assert d[1..] == [];
      assert AppendAll(c, f1, now, d) == AppendAll(c, f2, now, []);
    }
  }
}
