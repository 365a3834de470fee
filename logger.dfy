/** The structured logger of `scripts/core/logger.js`: a registry of sinks
    that every entry is fanned out to, a bounded breadcrumb buffer with a
    textual summary, session context merged into every entry, and one-time
    registration of the global error listeners.

    Sinks are values naming what was registered; what a sink does with an
    entry is I/O, so the model records each call in `calls` and takes, as a
    parameter `fails`, whether a call throws and with what message. */
module Logging {
  import opened Common

  /** `LEVELS`. */
  const Levels: seq<string> := ["debug", "info", "warn", "error"]
  /** `MAX_BREADCRUMBS`. */
  const MaxBreadcrumbs: nat := 12
  /** How many of the latest breadcrumbs the summary and each entry carry (`slice(-5)`). */
  const RecentBreadcrumbs: nat := 5

  /** A primitive JavaScript value as found in breadcrumb metadata. */
  datatype Scalar = Str(s: string) | Num(n: int) | Bool(b: bool) | Null

  /** One own property of a plain object; an object is a sequence of these in
      insertion order. */
  datatype Prop<V> = Prop(key: string, value: V)

  /** A breadcrumb: `{ event, timestamp, ...metadata }`. */
  type Crumb = seq<Prop<Scalar>>

  /** A value in a log entry's context. */
  datatype CtxValue = Plain(v: Scalar) | CrumbList(crumbs: seq<Crumb>)

  /** What can be handed to `registerSink`: a function (one of the sinks) or anything else. */
  datatype Sink =
    | ConsoleSink
    | OverlaySink(options: seq<Prop<Scalar>>)
    | NetworkSink(endpoint: string, fetchOptions: seq<Prop<Scalar>>)
    | ExternalSink(id: nat)
  datatype JsValue = Function(sink: Sink) | NonFunction

  /** What a sink is called with: a log entry, or the console fallback's
      warning about a sink that threw on `failed`. */
  datatype Record =
    | Entry(level: string, message: string, timestamp: string, context: Option<seq<Prop<CtxValue>>>)
    | SinkError(message: string, timestamp: string, failed: Record)

  /** One sink invocation. */
  datatype Call = Call(sink: Sink, record: Record)

  /** The listeners added to `window`. */
  datatype Listener = OnError | OnUnhandledRejection

  // ---------------------------------------------------------------- objects

  /** The own keys of an object. */
  function Keys<V>(o: seq<Prop<V>>): set<string> {
    if o == [] then {} else {o[0].key} + Keys(o[1..])
  }

  /** Own keys are distinct, as in every JavaScript object. */
  predicate UniqueKeys<V>(o: seq<Prop<V>>) {
    o == [] || (o[0].key !in Keys(o[1..]) && UniqueKeys(o[1..]))
  }

  /** Property lookup `o[k]`; `None` is `undefined`. */
  function Get<V>(o: seq<Prop<V>>, k: string): (r: Option<V>)
    ensures r.Some? <==> k in Keys(o)
  {
    if o == [] then None
    else if o[0].key == k then Some(o[0].value)
    else Get(o[1..], k)
  }

  /** Assignment `o[k] = v`: an existing key keeps its place, a new one is appended. */
  function Put<V>(o: seq<Prop<V>>, k: string, v: V): (r: seq<Prop<V>>)
    ensures Get(r, k) == Some(v)
    ensures forall other :: other != k ==> Get(r, other) == Get(o, other)
    ensures Keys(r) == Keys(o) + {k}
    ensures UniqueKeys(o) ==> UniqueKeys(r)
  {
    if o == [] then [Prop(k, v)]
    else if o[0].key == k then
      var r := [Prop(k, v)] + o[1..];
      assert r[1..] == o[1..];
      r
    else
      var r := [o[0]] + Put(o[1..], k, v);
      assert r[1..] == Put(o[1..], k, v);
      r
  }

  /** Object spread `{ ...o, ...extra }`: the properties of `extra` in order,
      each overwriting or extending what came before. */
  function Spread<V>(o: seq<Prop<V>>, extra: seq<Prop<V>>): (r: seq<Prop<V>>)
    ensures Keys(r) == Keys(o) + Keys(extra)
    ensures UniqueKeys(o) ==> UniqueKeys(r)
    decreases |extra|
  {
    if extra == [] then o
    else Spread(Put(o, extra[0].key, extra[0].value), extra[1..])
  }

  /** Later properties win: a key of `extra` takes its value from `extra`,
      any other key keeps the value it had in `o`. */
  lemma {:induction false} SpreadGet<V>(o: seq<Prop<V>>, extra: seq<Prop<V>>, k: string)
    requires UniqueKeys(extra)
    ensures Get(Spread(o, extra), k) == if k in Keys(extra) then Get(extra, k) else Get(o, k)
    decreases |extra|
  {
    if extra != [] {
      SpreadGet(Put(o, extra[0].key, extra[0].value), extra[1..], k);
    }
  }

  /** `delete o[k]`. */
  function Delete<V>(o: seq<Prop<V>>, k: string): (r: seq<Prop<V>>)
    ensures Keys(r) == Keys(o) - {k}
    ensures IsSubsequence(r, o)
  {
    if o == [] then []
    else if o[0].key == k then Delete(o[1..], k)
    else
      var r := [o[0]] + Delete(o[1..], k);
      assert r[1..] == Delete(o[1..], k);
      r
  }

  /** Deleting a key leaves every other key's value as it was. */
  lemma {:induction false} DeleteGet<V>(o: seq<Prop<V>>, k: string, other: string)
    requires other != k
    ensures Get(Delete(o, k), other) == Get(o, other)
  {
    if o != [] {
      DeleteGet(o[1..], k, other);
    }
  }

  // ---------------------------------------------------------------- text

  function Digit(d: nat): (c: char)
    requires d < 10
    ensures c as int == '0' as int + d
  {
    "0123456789"[d]
  }

  /** The number a string of decimal digits denotes, most significant first. */
  function NumeralValue(s: string): int
    decreases |s|
  {
    if s == [] then 0 else 10 * NumeralValue(s[..|s| - 1]) + (s[|s| - 1] as int - '0' as int)
  }

  /** The decimal numeral of a natural number: digits only, with no leading zero. */
  function NatText(n: nat): (r: string)
    ensures |r| >= 1
    ensures forall i :: 0 <= i < |r| ==> '0' <= r[i] <= '9'
    ensures r[0] == '0' ==> n == 0
    decreases n
  {
    if n < 10 then [Digit(n)] else NatText(n / 10) + [Digit(n % 10)]
  }

  /** Reading the numeral back gives the number. */
  lemma {:induction false} NatTextValue(n: nat)
    ensures NumeralValue(NatText(n)) == n
    decreases n
  {
    var r := NatText(n);
    if n >= 10 {
      NatTextValue(n / 10);
      assert r[..|r| - 1] == NatText(n / 10);
    }
  }

  /** String conversion of a primitive, as in a template literal. */
  function Text(v: Scalar): string {
    match v
    case Str(s) => s
    case Num(n) => if n < 0 then "-" + NatText(-n) else NatText(n)
    case Bool(b) => if b then "true" else "false"
    case Null => "null"
  }

  /** `JSON.stringify` of a primitive (strings are quoted, not escaped). */
  function JsonScalar(v: Scalar): string {
    if v.Str? then "\"" + v.s + "\"" else Text(v)
  }

  /** `parts.join(sep)`. */
  function Join(parts: seq<string>, sep: string): string
    decreases |parts|
  {
    if parts == [] then ""
    else if |parts| == 1 then parts[0]
    else parts[0] + sep + Join(parts[1..], sep)
  }

  /** A join ends with its last part. */
  lemma {:induction false} JoinEndsWithLast(parts: seq<string>, sep: string) returns (head: string)
    requires parts != []
    ensures Join(parts, sep) == head + parts[|parts| - 1]
    decreases |parts|
  {
    if |parts| == 1 {
      head := "";
    } else {
      var rest := parts[1..];
      var h := JoinEndsWithLast(rest, sep);
      assert rest[|rest| - 1] == parts[|parts| - 1];
      head := parts[0] + sep + h;
      assert Join(parts, sep) == parts[0] + sep + (h + rest[|rest| - 1]);
    }
  }

  /** `JSON.stringify` of a flat object. */
  function JsonObject(o: seq<Prop<Scalar>>): string {
    "{" + Join(seq(|o|, i requires 0 <= i < |o| => "\"" + o[i].key + "\":" + JsonScalar(o[i].value)), ",") + "}"
  }

  // ---------------------------------------------------------------- breadcrumbs

  /** The breadcrumb built by `addBreadcrumb(event, metadata)` at `timestamp`. */
  function MakeCrumb(event: string, metadata: seq<Prop<Scalar>>, timestamp: string): (c: Crumb)
    ensures "event" in Keys(c) && "timestamp" in Keys(c)
    ensures Keys(c) == {"event", "timestamp"} + Keys(metadata)
  {
    var base := [Prop("event", Str(event)), Prop("timestamp", Str(timestamp))];
    assert base[1..][1..] == [];
    Spread(base, metadata)
  }

  /** A crumb's fields: the event and timestamp unless the metadata overrides
      them, then every metadata property. */
  lemma CrumbFields(event: string, metadata: seq<Prop<Scalar>>, timestamp: string, k: string)
    requires UniqueKeys(metadata)
    ensures Get(MakeCrumb(event, metadata, timestamp), k)
         == if k in Keys(metadata) then Get(metadata, k)
            else if k == "event" then Some(Str(event))
            else if k == "timestamp" then Some(Str(timestamp))
            else None
  {
    var base := [Prop("event", Str(event)), Prop("timestamp", Str(timestamp))];
    SpreadGet(base, metadata, k);
  }

  /** One crumb in the summary: `event (details)`, with the details being the
      crumb without its timestamp. */
  function Describe(c: Crumb): string {
    var details := Delete(c, "timestamp");
    var event := Get(c, "event");
    (if event.Some? then Text(event.value) else "undefined")
      + " (" + (if |details| > 0 then JsonObject(details) else "no-details") + ")"
  }

  /** A recorded crumb always has its `event` key, so its details are never
      empty and the `no-details` text never appears for one. */
  lemma RecordedCrumbHasDetails(event: string, metadata: seq<Prop<Scalar>>, timestamp: string)
    ensures var c := MakeCrumb(event, metadata, timestamp);
            Describe(c) == Text(Get(c, "event").value) + " (" + JsonObject(Delete(c, "timestamp")) + ")"
  {
    var c := MakeCrumb(event, metadata, timestamp);
    assert "event" in Keys(Delete(c, "timestamp"));
  }

  /** `getBreadcrumbSummary()` over a buffer. */
  function Summary(crumbs: seq<Crumb>): string {
    if |crumbs| == 0 then "No breadcrumbs recorded."
    else
      var latest := LastN(crumbs, RecentBreadcrumbs);
      Join(seq(|latest|, i requires 0 <= i < |latest| => Describe(latest[i])), " > ")
  }

  /** The summary of a non-empty buffer ends with the newest crumb. */
  lemma SummaryEndsWithNewest(crumbs: seq<Crumb>) returns (head: string)
    requires crumbs != []
    ensures Summary(crumbs) == head + Describe(crumbs[|crumbs| - 1])
  {
    var latest := LastN(crumbs, RecentBreadcrumbs);
    var parts := seq(|latest|, i requires 0 <= i < |latest| => Describe(latest[i]));
    assert latest[|latest| - 1] == crumbs[|crumbs| - 1];
    head := JoinEndsWithLast(parts, " > ");
  }

  /** Only the five newest crumbs show in the summary. */
  lemma SummaryOfNewest(crumbs: seq<Crumb>)
    ensures Summary(crumbs) == Summary(LastN(crumbs, RecentBreadcrumbs))
  {
    var latest := LastN(crumbs, RecentBreadcrumbs);
    assert LastN(latest, RecentBreadcrumbs) == latest;
  }

  // ---------------------------------------------------------------- dispatch

  /** Whether calling `s` with `r` throws, and with what message. A network
      sink is `async`, so its failures never surface at the call. */
  function Throws(s: Sink, r: Record, fails: (Sink, Record) -> Option<string>): Option<string> {
    if s.NetworkSink? then None else fails(s, r)
  }

  /** The calls made by the `forEach` over `sinks`, and the error that escaped
      it, if any. */
  datatype Dispatched = Dispatched(calls: seq<Call>, error: Option<string>)

  /** One sink's turn: the call, and when it throws the console fallback,
      whose own error escapes. */
  function SinkTurn(s: Sink, entry: Record, fallbackTime: string, fails: (Sink, Record) -> Option<string>): Dispatched {
    match Throws(s, entry, fails)
    case None => Dispatched([Call(s, entry)], None)
    case Some(err) =>
      var warning := SinkError("Logger sink error: " + err, fallbackTime, entry);
      Dispatched([Call(s, entry), Call(ConsoleSink, warning)], Throws(ConsoleSink, warning, fails))
  }

  /** The `forEach` over `sinks` in order, stopping when an error escapes. */
  function Dispatch(sinks: seq<Sink>, entry: Record, fallbackTime: string, fails: (Sink, Record) -> Option<string>): Dispatched
    decreases |sinks|
  {
    if sinks == [] then Dispatched([], None)
    else
      var before := Dispatch(sinks[..|sinks| - 1], entry, fallbackTime, fails);
      if before.error.Some? then before
      else
        var turn := SinkTurn(sinks[|sinks| - 1], entry, fallbackTime, fails);
        Dispatched(before.calls + turn.calls, turn.error)
  }

  /** The sinks that were handed `entry` itself, in call order. */
  function Receivers(calls: seq<Call>, entry: Record): seq<Sink>
    decreases |calls|
  {
    if calls == [] then []
    else Receivers(calls[..|calls| - 1], entry)
         + (if calls[|calls| - 1].record == entry then [calls[|calls| - 1].sink] else [])
  }

  lemma {:induction false} ReceiversAppend(a: seq<Call>, b: seq<Call>, entry: Record)
    ensures Receivers(a + b, entry) == Receivers(a, entry) + Receivers(b, entry)
    decreases |b|
  {
    if b != [] {
      assert (a + b)[..|a + b| - 1] == a + b[..|b| - 1];
      assert (a + b)[|a + b| - 1] == b[|b| - 1];
      ReceiversAppend(a, b[..|b| - 1], entry);
    } else {
      assert a + b == a;
    }
  }

  /** The registry grown by one sink dispatches as before, then gives the new
      sink its turn unless an error already escaped. */
  lemma DispatchSnoc(init: seq<Sink>, s: Sink, entry: Record, fallbackTime: string,
                     fails: (Sink, Record) -> Option<string>)
    ensures var before := Dispatch(init, entry, fallbackTime, fails);
            var turn := SinkTurn(s, entry, fallbackTime, fails);
            Dispatch(init + [s], entry, fallbackTime, fails)
            == if before.error.Some? then before else Dispatched(before.calls + turn.calls, turn.error)
  {
    assert (init + [s])[..|init + [s]| - 1] == init;
  }

  /** A sink's turn hands the entry to that sink alone; an error escapes from
      the console fallback only. */
  lemma SinkTurnReceivers(s: Sink, entry: Record, fallbackTime: string, fails: (Sink, Record) -> Option<string>)
    requires entry.Entry?
    ensures var turn := SinkTurn(s, entry, fallbackTime, fails);
            && Receivers(turn.calls, entry) == [s]
            && (turn.error.Some? ==> turn.calls != [] && turn.calls[|turn.calls| - 1].sink == ConsoleSink
                                     && turn.calls[|turn.calls| - 1].record.SinkError?)
  {
    var turn := SinkTurn(s, entry, fallbackTime, fails);
    assert [Call(s, entry)][..0] == [];
    assert Receivers([Call(s, entry)], entry) == [s];
    if Throws(s, entry, fails).Some? {
      var warning := SinkError("Logger sink error: " + Throws(s, entry, fails).value, fallbackTime, entry);
      assert turn.calls == [Call(s, entry), Call(ConsoleSink, warning)];
      assert turn.calls[..|turn.calls| - 1] == [Call(s, entry)];
      assert warning != entry;
    }
  }

  /** The sinks handed the entry are a prefix of the registry, in
      registration order, and all of it when no error escaped. */
  ghost predicate ReachedInOrder(sinks: seq<Sink>, entry: Record, fallbackTime: string,
                                 fails: (Sink, Record) -> Option<string>)
  {
    var d := Dispatch(sinks, entry, fallbackTime, fails);
    var got := Receivers(d.calls, entry);
    && |got| <= |sinks| && got == sinks[..|got|]
    && (d.error.None? ==> got == sinks)
  }

  /** The sinks reached are a prefix of the registry, each handed the entry
      once, in registration order; when no error escapes, that is every sink. */
  lemma {:induction false} DispatchInOrder(sinks: seq<Sink>, entry: Record, fallbackTime: string,
                                           fails: (Sink, Record) -> Option<string>)
    requires entry.Entry?
    ensures ReachedInOrder(sinks, entry, fallbackTime, fails)
    decreases |sinks|
  {
    if sinks != [] {
      var init := sinks[..|sinks| - 1];
      var s := sinks[|sinks| - 1];
      assert init + [s] == sinks;
      DispatchInOrder(init, entry, fallbackTime, fails);
      ReachedInOrderSnoc(init, s, entry, fallbackTime, fails);
    }
  }

  lemma ReachedInOrderSnoc(init: seq<Sink>, s: Sink, entry: Record, fallbackTime: string,
                           fails: (Sink, Record) -> Option<string>)
    requires entry.Entry?
    requires ReachedInOrder(init, entry, fallbackTime, fails)
    ensures ReachedInOrder(init + [s], entry, fallbackTime, fails)
  {
    var sinks := init + [s];
    DispatchSnoc(init, s, entry, fallbackTime, fails);
    var before := Dispatch(init, entry, fallbackTime, fails);
    var d := Dispatch(sinks, entry, fallbackTime, fails);
    var got := Receivers(before.calls, entry);
    if before.error.None? {
      var turn := SinkTurn(s, entry, fallbackTime, fails);
      assert d.calls == before.calls + turn.calls;
      ReceiversAppend(before.calls, turn.calls, entry);
      SinkTurnReceivers(s, entry, fallbackTime, fails);
      assert Receivers(d.calls, entry) == sinks;
      assert sinks[..|sinks|] == sinks;
    } else {
      assert d == before;
      assert sinks[..|got|] == init[..|got|];
    }
  }

  /** An error escapes only from a throwing console fallback: it is then the
      last call made. */
  lemma {:induction false} DispatchErrorFromFallback(sinks: seq<Sink>, entry: Record, fallbackTime: string,
                                                     fails: (Sink, Record) -> Option<string>)
    requires entry.Entry?
    ensures var d := Dispatch(sinks, entry, fallbackTime, fails);
            d.error.Some? ==> d.calls != [] && d.calls[|d.calls| - 1].sink == ConsoleSink
                              && d.calls[|d.calls| - 1].record.SinkError?
    decreases |sinks|
  {
    if sinks != [] {
      var init := sinks[..|sinks| - 1];
      var s := sinks[|sinks| - 1];
      assert init + [s] == sinks;
      DispatchSnoc(init, s, entry, fallbackTime, fails);
      var before := Dispatch(init, entry, fallbackTime, fails);
      if before.error.None? {
        var turn := SinkTurn(s, entry, fallbackTime, fails);
        SinkTurnReceivers(s, entry, fallbackTime, fails);
        if turn.error.Some? {
          var calls := before.calls + turn.calls;
          assert calls[|calls| - 1] == turn.calls[|turn.calls| - 1];
        }
      } else {
        DispatchErrorFromFallback(init, entry, fallbackTime, fails);
      }
    }
  }

  /** When the console fallback never throws, every registered sink is called
      with the entry, whatever the other sinks do. */
  lemma EverySinkReached(sinks: seq<Sink>, entry: Record, fallbackTime: string,
                         fails: (Sink, Record) -> Option<string>)
    requires entry.Entry?
    requires forall m, t, f :: fails(ConsoleSink, SinkError(m, t, f)).None?
    ensures Dispatch(sinks, entry, fallbackTime, fails).error.None?
    ensures Receivers(Dispatch(sinks, entry, fallbackTime, fails).calls, entry) == sinks
  {
    NoErrorEscapes(sinks, entry, fallbackTime, fails);
    DispatchInOrder(sinks, entry, fallbackTime, fails);
  }

  lemma {:induction false} NoErrorEscapes(sinks: seq<Sink>, entry: Record, fallbackTime: string,
                                          fails: (Sink, Record) -> Option<string>)
    requires forall m, t, f :: fails(ConsoleSink, SinkError(m, t, f)).None?
    ensures Dispatch(sinks, entry, fallbackTime, fails).error.None?
    decreases |sinks|
  {
    if sinks != [] {
      NoErrorEscapes(sinks[..|sinks| - 1], entry, fallbackTime, fails);
    }
  }

  /** The context every entry starts from. */
  function BaseContext(sessionId: string, levelName: string, crumbs: seq<Crumb>): (c: seq<Prop<CtxValue>>)
    ensures UniqueKeys(c)
    ensures Keys(c) == {"sessionId", "levelName", "breadcrumbs", "breadcrumbTrail"}
  {
    var c4 := [Prop("breadcrumbTrail", Plain(Str(Summary(crumbs))))];
    var c3 := [Prop("breadcrumbs", CrumbList(LastN(crumbs, RecentBreadcrumbs)))] + c4;
    var c2 := [Prop("levelName", Plain(Str(levelName)))] + c3;
    var c1 := [Prop("sessionId", Plain(Str(sessionId)))] + c2;
    assert c4[1..] == [] && c3[1..] == c4 && c2[1..] == c3 && c1[1..] == c2;
    assert Keys(c4) == {"breadcrumbTrail"};
    assert Keys(c3) == {"breadcrumbs", "breadcrumbTrail"};
    assert Keys(c2) == {"levelName", "breadcrumbs", "breadcrumbTrail"};
    assert UniqueKeys(c3) && UniqueKeys(c2);
    c1
  }

  /** The entry `log` builds: the caller's context spread over the session
      context, so caller keys win. */
  function MakeEntry(level: string, message: string, context: Option<seq<Prop<CtxValue>>>, timestamp: string,
                     sessionId: string, levelName: string, crumbs: seq<Crumb>): (e: Record)
    ensures e.Entry? && e.level == level && e.message == message && e.timestamp == timestamp
    // the merged context always has the session keys, so it is never dropped
    ensures e.context.Some?
    ensures {"sessionId", "levelName", "breadcrumbs", "breadcrumbTrail"} <= Keys(e.context.value)
  {
    var merged := Spread(BaseContext(sessionId, levelName, crumbs), context.GetOr([]));
    assert "sessionId" in Keys(merged);
    Entry(level, message, timestamp, if |merged| > 0 then Some(merged) else None)
  }

  /** A context key is the caller's when given, else the session's. */
  lemma EntryContext(level: string, message: string, context: seq<Prop<CtxValue>>, timestamp: string,
                     sessionId: string, levelName: string, crumbs: seq<Crumb>, k: string)
    requires UniqueKeys(context)
    ensures Get(MakeEntry(level, message, Some(context), timestamp, sessionId, levelName, crumbs).context.value, k)
         == if k in Keys(context) then Get(context, k)
            else Get(BaseContext(sessionId, levelName, crumbs), k)
  {
    SpreadGet(BaseContext(sessionId, levelName, crumbs), context, k);
  }

  /** The properties of a plain-valued object as context properties. */
  function Lift(o: seq<Prop<Scalar>>): (r: seq<Prop<CtxValue>>)
    ensures |r| == |o|
    ensures forall i :: 0 <= i < |o| ==> r[i] == Prop(o[i].key, Plain(o[i].value))
  {
    seq(|o|, i requires 0 <= i < |o| => Prop(o[i].key, Plain(o[i].value)))
  }

  class Logger {
    var sinks: seq<Sink>
    var handlersAttached: bool
    var overlaySink: Option<Sink>
    var sessionId: string
    var levelName: string
    var breadcrumbs: seq<Crumb>
    /** Every sink invocation so far, in order. */
    var calls: seq<Call>
    /** The listeners added to `window`. */
    var listeners: seq<Listener>
    /** Every breadcrumb added since the session began. */
    ghost var trail: seq<Crumb>

    ghost predicate Valid()
      reads this
    {
      breadcrumbs == LastN(trail, MaxBreadcrumbs)
    }

    /** `new Logger()`, with `sessionId` the generated id: the console sink is
        registered first. */
    constructor (sessionId: string)
      ensures Valid()
      ensures sinks == [ConsoleSink] && !handlersAttached && overlaySink == None
      ensures this.sessionId == sessionId && levelName == "bootstrap" && breadcrumbs == []
      ensures calls == [] && listeners == []
    {
      sinks := [ConsoleSink];
      handlersAttached := false;
      overlaySink := None;
      this.sessionId := sessionId;
      levelName := "bootstrap";
      breadcrumbs := [];
      calls := [];
      listeners := [];
      trail := [];
    }

    /** `registerSink(sink)`: only functions are registered. */
    method RegisterSink(v: JsValue)
      modifies this`sinks
      ensures sinks == if v.Function? then old(sinks) + [v.sink] else old(sinks)
    {
      if v.Function? {
        sinks := sinks + [v.sink];
      }
    }

    /** `enableOverlaySink(options)`: the overlay is created and registered on
        the first call only; every call returns that one overlay. */
    method EnableOverlaySink(options: seq<Prop<Scalar>>) returns (s: Sink)
      modifies this`overlaySink, this`sinks
      ensures overlaySink == Some(s)
      ensures old(overlaySink).None? ==> s == OverlaySink(options) && sinks == old(sinks) + [s]
      ensures old(overlaySink).Some? ==> s == old(overlaySink).value && sinks == old(sinks)
    {
      if overlaySink.None? {
        overlaySink := Some(OverlaySink(options));
        RegisterSink(Function(overlaySink.value));
      }
      s := overlaySink.value;
    }

    /** `registerNetworkSink(endpoint, fetchOptions)`: a new network sink is
        registered on every call. */
    method RegisterNetworkSink(endpoint: string, fetchOptions: seq<Prop<Scalar>>) returns (s: Sink)
      modifies this`sinks
      ensures s == NetworkSink(endpoint, fetchOptions) && sinks == old(sinks) + [s]
    {
      s := NetworkSink(endpoint, fetchOptions);
      RegisterSink(Function(s));
    }

    /** `setLevelName(levelName)`. */
    method SetLevelName(name: string)
      modifies this`levelName
      ensures levelName == name
    {
      levelName := name;
    }

    /** `addBreadcrumb(event, metadata)` at `timestamp`: the crumb goes last
        and the oldest is dropped beyond twelve. */
    method AddBreadcrumb(event: string, metadata: seq<Prop<Scalar>>, timestamp: string) returns (crumb: Crumb)
      requires Valid()
      modifies this`breadcrumbs, this`trail
      ensures Valid()
      ensures crumb == MakeCrumb(event, metadata, timestamp)
      ensures trail == old(trail) + [crumb]
      ensures breadcrumbs == Slide(old(breadcrumbs), crumb, MaxBreadcrumbs)
      ensures |breadcrumbs| <= MaxBreadcrumbs && breadcrumbs[|breadcrumbs| - 1] == crumb
    {
      crumb := MakeCrumb(event, metadata, timestamp);
      SlideKeepsLatest(trail, crumb, MaxBreadcrumbs);
      breadcrumbs := breadcrumbs + [crumb];
      if |breadcrumbs| > MaxBreadcrumbs {
        breadcrumbs := breadcrumbs[1..];
      }
      trail := trail + [crumb];
    }

    /** `getBreadcrumbSummary()`. */
    function BreadcrumbSummary(): string
      reads this
    {
      Summary(breadcrumbs)
    }

    /** `log(level, message, context)` at `timestamp`; `fallbackTime` stamps
        any console fallback. Returns the error thrown out of `log`, if any. */
    method Log(level: string, message: string, context: Option<seq<Prop<CtxValue>>>, timestamp: string,
               fallbackTime: string, fails: (Sink, Record) -> Option<string>) returns (thrown: Option<string>)
      modifies this`calls
      ensures level !in Levels ==> thrown == Some("Unknown log level: " + level) && calls == old(calls)
      ensures level in Levels ==>
                var entry := MakeEntry(level, message, context, timestamp, sessionId, levelName, breadcrumbs);
                && calls == old(calls) + Dispatch(sinks, entry, fallbackTime, fails).calls
                && thrown == Dispatch(sinks, entry, fallbackTime, fails).error
    {
      if level !in Levels {
        return Some("Unknown log level: " + level);
      }
      var entry := MakeEntry(level, message, context, timestamp, sessionId, levelName, breadcrumbs);
      thrown := ForEachSink(entry, fallbackTime, fails);
    }

    /** The `forEach` over the registered sinks: each is handed `entry` in
        registration order, a throwing sink gets a console warning, and an
        error thrown by that warning escapes and ends the loop. */
    method ForEachSink(entry: Record, fallbackTime: string, fails: (Sink, Record) -> Option<string>) returns (thrown: Option<string>)
      modifies this`calls
      ensures calls == old(calls) + Dispatch(sinks, entry, fallbackTime, fails).calls
      ensures thrown == Dispatch(sinks, entry, fallbackTime, fails).error
    {
      var registry := sinks;
      var i := 0;
      while i < |registry|
        invariant 0 <= i <= |registry|
        invariant calls == old(calls) + Dispatch(registry[..i], entry, fallbackTime, fails).calls
        invariant Dispatch(registry[..i], entry, fallbackTime, fails).error.None?
      {
        DispatchNext(registry, i, entry, fallbackTime, fails);
        var escaped := HandTo(registry[i], entry, fallbackTime, fails);
        if escaped.Some? {
          return escaped;
        }
        i := i + 1;
      }
      DispatchWhole(registry, entry, fallbackTime, fails);
      thrown := None;
    }

    /** The `forEach` callback for one sink: hand it `entry`; if it throws,
        warn on the console, whose own error escapes. */
    method HandTo(sink: Sink, entry: Record, fallbackTime: string, fails: (Sink, Record) -> Option<string>)
      returns (escaped: Option<string>)
      modifies this`calls
      ensures calls == old(calls) + SinkTurn(sink, entry, fallbackTime, fails).calls
      ensures escaped == SinkTurn(sink, entry, fallbackTime, fails).error
    {
      calls := calls + [Call(sink, entry)];
      var err := Throws(sink, entry, fails);
      if err.Some? {
        var warning := SinkError("Logger sink error: " + err.value, fallbackTime, entry);
        calls := calls + [Call(ConsoleSink, warning)];
        escaped := Throws(ConsoleSink, warning, fails);
      } else {
        escaped := None;
      }
    }

    /** `debug(message, context)`. */
    method Debug(message: string, context: Option<seq<Prop<CtxValue>>>, timestamp: string,
                 fallbackTime: string, fails: (Sink, Record) -> Option<string>) returns (thrown: Option<string>)
      modifies this`calls
      ensures calls == old(calls) + Dispatch(sinks, MakeEntry("debug", message, context, timestamp, sessionId, levelName, breadcrumbs),
                                             fallbackTime, fails).calls
      ensures thrown == Dispatch(sinks, MakeEntry("debug", message, context, timestamp, sessionId, levelName, breadcrumbs),
                                             fallbackTime, fails).error
    {
      thrown := Log("debug", message, context, timestamp, fallbackTime, fails);
    }

    /** `info(message, context)`. */
    method Info(message: string, context: Option<seq<Prop<CtxValue>>>, timestamp: string,
                fallbackTime: string, fails: (Sink, Record) -> Option<string>) returns (thrown: Option<string>)
      modifies this`calls
      ensures calls == old(calls) + Dispatch(sinks, MakeEntry("info", message, context, timestamp, sessionId, levelName, breadcrumbs),
                                             fallbackTime, fails).calls
      ensures thrown == Dispatch(sinks, MakeEntry("info", message, context, timestamp, sessionId, levelName, breadcrumbs),
                                             fallbackTime, fails).error
    {
      thrown := Log("info", message, context, timestamp, fallbackTime, fails);
    }

    /** `warn(message, context)`. */
    method Warn(message: string, context: Option<seq<Prop<CtxValue>>>, timestamp: string,
                fallbackTime: string, fails: (Sink, Record) -> Option<string>) returns (thrown: Option<string>)
      modifies this`calls
      ensures calls == old(calls) + Dispatch(sinks, MakeEntry("warn", message, context, timestamp, sessionId, levelName, breadcrumbs),
                                             fallbackTime, fails).calls
      ensures thrown == Dispatch(sinks, MakeEntry("warn", message, context, timestamp, sessionId, levelName, breadcrumbs),
                                             fallbackTime, fails).error
    {
      thrown := Log("warn", message, context, timestamp, fallbackTime, fails);
    }

    /** `error(message, context)`. */
    method Error(message: string, context: Option<seq<Prop<CtxValue>>>, timestamp: string,
                 fallbackTime: string, fails: (Sink, Record) -> Option<string>) returns (thrown: Option<string>)
      modifies this`calls
      ensures calls == old(calls) + Dispatch(sinks, MakeEntry("error", message, context, timestamp, sessionId, levelName, breadcrumbs),
                                             fallbackTime, fails).calls
      ensures thrown == Dispatch(sinks, MakeEntry("error", message, context, timestamp, sessionId, levelName, breadcrumbs),
                                             fallbackTime, fails).error
    {
      thrown := Log("error", message, context, timestamp, fallbackTime, fails);
    }

    /** `startSession(levelName)` with `newSessionId` the generated id: the
        buffer is emptied, then the session start is logged at info level. */
    method StartSession(name: Option<string>, newSessionId: string, timestamp: string,
                        fallbackTime: string, fails: (Sink, Record) -> Option<string>) returns (thrown: Option<string>)
      modifies this`sessionId, this`levelName, this`breadcrumbs, this`trail, this`calls
      ensures Valid()
      ensures sessionId == newSessionId && levelName == name.GetOr("unknown") && breadcrumbs == [] && trail == []
      ensures calls == old(calls) + Dispatch(sinks, MakeEntry("info", "Session context initialized.",
                                                              Some([Prop("module", Plain(Str("logger"))),
                                                                    Prop("sessionId", Plain(Str(sessionId))),
                                                                    Prop("levelName", Plain(Str(levelName)))]),
                                                              timestamp, sessionId, levelName, []),
                                             fallbackTime, fails).calls
      ensures thrown == Dispatch(sinks, MakeEntry("info", "Session context initialized.",
                                                              Some([Prop("module", Plain(Str("logger"))),
                                                                    Prop("sessionId", Plain(Str(sessionId))),
                                                                    Prop("levelName", Plain(Str(levelName)))]),
                                                              timestamp, sessionId, levelName, []),
                                             fallbackTime, fails).error
    {
      sessionId := newSessionId;
      levelName := name.GetOr("unknown");
      breadcrumbs := [];
      trail := [];
      thrown := Info("Session context initialized.",
                     Some([Prop("module", Plain(Str("logger"))), Prop("sessionId", Plain(Str(sessionId))),
                           Prop("levelName", Plain(Str(levelName)))]),
                     timestamp, fallbackTime, fails);
    }

    /** `withContext(base).<level>(message, context)`: `base` spread under the
        call's own context. */
    method LogWithContext(base: seq<Prop<Scalar>>, level: string, message: string,
                          context: Option<seq<Prop<CtxValue>>>, timestamp: string,
                          fallbackTime: string, fails: (Sink, Record) -> Option<string>) returns (thrown: Option<string>)
      requires level in Levels
      modifies this`calls
      ensures calls == old(calls) + Dispatch(sinks, MakeEntry(level, message, Some(Spread(Lift(base), context.GetOr([]))),
                                                              timestamp, sessionId, levelName, breadcrumbs),
                                             fallbackTime, fails).calls
      ensures thrown == Dispatch(sinks, MakeEntry(level, message, Some(Spread(Lift(base), context.GetOr([]))),
                                                              timestamp, sessionId, levelName, breadcrumbs),
                                             fallbackTime, fails).error
    {
      thrown := Log(level, message, Some(Spread(Lift(base), context.GetOr([]))), timestamp, fallbackTime, fails);
    }

    /** `withContext(base).breadcrumb(event, metadata)`. */
    method BreadcrumbWithContext(base: seq<Prop<Scalar>>, event: string, metadata: seq<Prop<Scalar>>, timestamp: string)
      returns (crumb: Crumb)
      requires Valid()
      modifies this`breadcrumbs, this`trail
      ensures Valid()
      ensures crumb == MakeCrumb(event, Spread(base, metadata), timestamp)
      ensures breadcrumbs == Slide(old(breadcrumbs), crumb, MaxBreadcrumbs)
    {
      crumb := AddBreadcrumb(event, Spread(base, metadata), timestamp);
    }

    /** `attachGlobalErrorHandlers()`: the two listeners are added once. */
    method AttachGlobalErrorHandlers()
      modifies this`listeners, this`handlersAttached
      ensures handlersAttached
      ensures listeners == if old(handlersAttached) then old(listeners) else old(listeners) + [OnError, OnUnhandledRejection]
    {
      if handlersAttached {
        return;
      }
      listeners := listeners + [OnError, OnUnhandledRejection];
      handlersAttached := true;
    }

    /** The `error` listener: an error-level entry describing the event, with
        the breadcrumb trail and the session id. */
    method OnWindowError(message: Scalar, filename: Scalar, line: Scalar, column: Scalar, error: Scalar,
                         timestamp: string, fallbackTime: string, fails: (Sink, Record) -> Option<string>)
      returns (thrown: Option<string>)
      modifies this`calls
      ensures calls == old(calls) + Dispatch(sinks, MakeEntry("error", "An unexpected error interrupted the game.",
                                                              Some(WindowErrorContext(message, filename, line, column, error,
                                                                                      Summary(breadcrumbs), sessionId)),
                                                              timestamp, sessionId, levelName, breadcrumbs),
                                             fallbackTime, fails).calls
      ensures thrown == Dispatch(sinks, MakeEntry("error", "An unexpected error interrupted the game.",
                                                              Some(WindowErrorContext(message, filename, line, column, error,
                                                                                      Summary(breadcrumbs), sessionId)),
                                                              timestamp, sessionId, levelName, breadcrumbs),
                                             fallbackTime, fails).error
    {
      thrown := Error("An unexpected error interrupted the game.",
                      Some(WindowErrorContext(message, filename, line, column, error, Summary(breadcrumbs), sessionId)),
                      timestamp, fallbackTime, fails);
    }

    /** The `unhandledrejection` listener. */
    method OnRejection(reason: Scalar, timestamp: string, fallbackTime: string, fails: (Sink, Record) -> Option<string>)
      returns (thrown: Option<string>)
      modifies this`calls
      ensures calls == old(calls) + Dispatch(sinks, MakeEntry("error", "An unhandled promise rejection occurred.",
                                                              Some(RejectionContext(reason, Summary(breadcrumbs), sessionId)),
                                                              timestamp, sessionId, levelName, breadcrumbs),
                                             fallbackTime, fails).calls
      ensures thrown == Dispatch(sinks, MakeEntry("error", "An unhandled promise rejection occurred.",
                                                              Some(RejectionContext(reason, Summary(breadcrumbs), sessionId)),
                                                              timestamp, sessionId, levelName, breadcrumbs),
                                             fallbackTime, fails).error
    {
      thrown := Error("An unhandled promise rejection occurred.",
                      Some(RejectionContext(reason, Summary(breadcrumbs), sessionId)),
                      timestamp, fallbackTime, fails);
    }
  }

  /** One more turn of the `forEach` over `registry`: the prefix grown by
      the next sink, and the whole dispatch once that sink lets an error
      escape. */
  lemma DispatchNext(registry: seq<Sink>, i: nat, entry: Record, fallbackTime: string,
                     fails: (Sink, Record) -> Option<string>)
    requires i < |registry|
    requires Dispatch(registry[..i], entry, fallbackTime, fails).error.None?
    ensures var before := Dispatch(registry[..i], entry, fallbackTime, fails);
            var turn := SinkTurn(registry[i], entry, fallbackTime, fails);
            && Dispatch(registry[..i + 1], entry, fallbackTime, fails) == Dispatched(before.calls + turn.calls, turn.error)
            && (turn.error.Some? ==> Dispatch(registry, entry, fallbackTime, fails) == Dispatched(before.calls + turn.calls, turn.error))
  {
    assert registry[..i + 1] == registry[..i] + [registry[i]];
    DispatchSnoc(registry[..i], registry[i], entry, fallbackTime, fails);
    if SinkTurn(registry[i], entry, fallbackTime, fails).error.Some? {
      assert registry == registry[..i + 1] + registry[i + 1..];
      DispatchStops(registry[..i + 1], registry[i + 1..], entry, fallbackTime, fails);
    }
  }

  /** Dispatching over every sink of the registry is the whole dispatch. */
  lemma DispatchWhole(registry: seq<Sink>, entry: Record, fallbackTime: string,
                      fails: (Sink, Record) -> Option<string>)
    ensures Dispatch(registry[..|registry|], entry, fallbackTime, fails) == Dispatch(registry, entry, fallbackTime, fails)
  {
    assert registry[..|registry|] == registry;
  }

  /** An error escaping at the end of `done` leaves the dispatch of any longer
      registry unchanged. */
  lemma {:induction false} DispatchStops(done: seq<Sink>, rest: seq<Sink>, entry: Record, fallbackTime: string,
                                         fails: (Sink, Record) -> Option<string>)
    requires Dispatch(done, entry, fallbackTime, fails).error.Some?
    ensures Dispatch(done + rest, entry, fallbackTime, fails) == Dispatch(done, entry, fallbackTime, fails)
    decreases |rest|
  {
    if rest != [] {
      var init := rest[..|rest| - 1];
      DispatchStops(done, init, entry, fallbackTime, fails);
      assert (done + rest)[..|done + rest| - 1] == done + init;
    } else {
      assert done + rest == done;
    }
  }

  /** The context of the `error` listener's entry. */
  function WindowErrorContext(message: Scalar, filename: Scalar, line: Scalar, column: Scalar, error: Scalar,
                              trail: string, sessionId: string): seq<Prop<CtxValue>> {
    [Prop("message", Plain(message)), Prop("source", Plain(filename)), Prop("line", Plain(line)),
     Prop("column", Plain(column)), Prop("error", Plain(error)),
     Prop("nextSteps", Plain(Str("Reload the page. If the issue persists, clear your cache or report the error."))),
     Prop("breadcrumbTrail", Plain(Str(trail))), Prop("sessionId", Plain(Str(sessionId)))]
  }

  /** The context of the `unhandledrejection` listener's entry. */
  function RejectionContext(reason: Scalar, trail: string, sessionId: string): seq<Prop<CtxValue>> {
    [Prop("reason", Plain(reason)),
     Prop("nextSteps", Plain(Str("Retry the last action or reload the page to continue playing."))),
     Prop("breadcrumbTrail", Plain(Str(trail))), Prop("sessionId", Plain(Str(sessionId)))]
  }
}
