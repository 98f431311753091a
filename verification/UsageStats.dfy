/** Folding logged requests into totals: by model, by day, and as average speeds. */
module UsageStats {
  import opened Text

  /** One logged request; counts a line does not carry are zero. Speeds are real numbers. */
  datatype Event = Event(
    ts: nat,
    day: string,
    model: Option<string>,
    source: Option<string>,
    prompt: nat,
    completion: nat,
    cached: nat,
    promptTokPerSec: Option<real>,
    decodeTokPerSec: Option<real>)

  datatype DayAgg = DayAgg(tokens: nat, requests: nat, prompt: nat, cached: nat, byModel: map<string, nat>)

  /** Tokens over seconds, summed apart. */
  datatype Speed = Speed(tokens: nat, secs: real)

  datatype Stats = Stats(
    prompt: nat,
    completion: nat,
    cached: nat,
    requests: nat,
    prefill: Speed,
    decode: Speed,
    byDay: map<string, DayAgg>,
    byModel: map<string, nat>)

  const NO_STATS := Stats(0, 0, 0, 0, Speed(0, 0.0), Speed(0, 0.0), map[], map[])

  function Get(m: map<string, nat>, k: string): nat {
    if k in m then m[k] else 0
  }

  function DayOf(byDay: map<string, DayAgg>, day: string): DayAgg {
    if day in byDay then byDay[day] else DayAgg(0, 0, 0, 0, map[])
  }

  function ModelOf(display: string -> string, e: Event): string {
    display(Or(e.model, "unknown"))
  }

  function Tokens(e: Event): nat {
    e.prompt + e.completion
  }

  function Uncached(e: Event): nat {
    if e.prompt > e.cached then e.prompt - e.cached else 0
  }

  /** A positive speed for a positive number of tokens contributes. */
  predicate Contributes(tokens: nat, rate: Option<real>) {
    rate.Some? && rate.value > 0.0 && tokens > 0
  }

  function AddSpeed(s: Speed, tokens: nat, rate: Option<real>): Speed {
    if Contributes(tokens, rate) then Speed(s.tokens + tokens, s.secs + tokens as real / rate.value) else s
  }

  function AddToDay(a: DayAgg, model: string, e: Event): DayAgg {
    DayAgg(a.tokens + Tokens(e), a.requests + 1, a.prompt + e.prompt, a.cached + e.cached,
           a.byModel[model := Get(a.byModel, model) + Tokens(e)])
  }

  function Step(display: string -> string, s: Stats, e: Event): Stats {
    var model := ModelOf(display, e);
    Stats(
      s.prompt + e.prompt, s.completion + e.completion, s.cached + e.cached, s.requests + 1,
      AddSpeed(s.prefill, Uncached(e), e.promptTokPerSec),
      AddSpeed(s.decode, e.completion, e.decodeTokPerSec),
      if e.day == "" then s.byDay else s.byDay[e.day := AddToDay(DayOf(s.byDay, e.day), model, e)],
      s.byModel[model := Get(s.byModel, model) + Tokens(e)])
  }

  function Folded(display: string -> string, events: seq<Event>): Stats {
    if events == [] then NO_STATS else Step(display, Folded(display, events[..|events| - 1]), events[|events| - 1])
  }

  /** The request's aggregation loop. */
  method Aggregate(display: string -> string, events: seq<Event>) returns (s: Stats)
    ensures s == Folded(display, events)
  {
    s := NO_STATS;
    for i := 0 to |events|
      invariant s == Folded(display, events[..i])
    {
      FoldMore(display, events[..i], events[i]);
      assert events[..i + 1] == events[..i] + [events[i]];
      s := AddEvent(display, s, events[i]);
    }
    assert events[..|events|] == events;
  }

  /** One turn of the loop, accumulator by accumulator. */
  method AddEvent(display: string -> string, s: Stats, e: Event) returns (s': Stats)
    ensures s' == Step(display, s, e)
  {
    s' := s;
    var model, tokens := ModelOf(display, e), e.prompt + e.completion;
    s' := s'.(prefill := AddSpeed(s'.prefill, Uncached(e), e.promptTokPerSec));
    s' := s'.(decode := AddSpeed(s'.decode, e.completion, e.decodeTokPerSec));
    s' := s'.(prompt := s'.prompt + e.prompt, completion := s'.completion + e.completion,
              cached := s'.cached + e.cached, requests := s'.requests + 1);
    if e.day != "" {
      s' := s'.(byDay := s'.byDay[e.day := AddToDay(DayOf(s'.byDay, e.day), model, e)]);
    }
    s' := s'.(byModel := s'.byModel[model := Get(s'.byModel, model) + tokens]);
  }

  // ----- sums over a map

  ghost function SumValues(m: map<string, nat>): nat {
    if m == map[] then 0
    else
      var k :| k in m;
      m[k] + SumValues(m - {k})
  }

  lemma {:induction false} SumWithout(m: map<string, nat>, k: string)
    requires k in m
    ensures SumValues(m) == m[k] + SumValues(m - {k})
    decreases |m|
  {
    var p :| p in m && SumValues(m) == m[p] + SumValues(m - {p});
    if p != k {
      SumWithout(m - {p}, k);
      SumWithout(m - {k}, p);
      assert m - {p} - {k} == m - {k} - {p};
    }
  }

  lemma {:induction false} SumAdded(m: map<string, nat>, k: string, n: nat)
    ensures SumValues(m[k := Get(m, k) + n]) == SumValues(m) + n
  {
    var m' := m[k := Get(m, k) + n];
    SumWithout(m', k);
    assert m' - {k} == m - {k};
    if k in m {
      SumWithout(m, k);
    } else {
      assert m - {k} == m;
    }
  }

  // ----- nothing is lost or counted twice

  lemma {:induction false} FoldMore(display: string -> string, events: seq<Event>, e: Event)
    ensures Folded(display, events + [e]) == Step(display, Folded(display, events), e)
  {
    assert (events + [e])[..|events|] == events;
  }

  ghost predicate DaysAddUp(byDay: map<string, DayAgg>) {
    forall day :: day in byDay ==> SumValues(byDay[day].byModel) == byDay[day].tokens
  }

  lemma {:induction false} DayKeepsSplit(byDay: map<string, DayAgg>, model: string, e: Event)
    requires DaysAddUp(byDay)
    ensures DaysAddUp(byDay[e.day := AddToDay(DayOf(byDay, e.day), model, e)])
  {
    SumAdded(DayOf(byDay, e.day).byModel, model, Tokens(e));
  }

  /** Per-model tokens sum to the total usage, and each day's per-model split to that day's tokens. */
  lemma {:induction false} SplitsSumToTotals(display: string -> string, events: seq<Event>)
    ensures var s := Folded(display, events); SumValues(s.byModel) == s.prompt + s.completion && DaysAddUp(s.byDay)
  {
    if events != [] {
      var n := |events| - 1;
      var s, e := Folded(display, events[..n]), events[n];
      SplitsSumToTotals(display, events[..n]);
      StepKeepsSplits(display, s, e);
    }
  }

  lemma {:induction false} StepKeepsSplits(display: string -> string, s: Stats, e: Event)
    requires SumValues(s.byModel) == s.prompt + s.completion && DaysAddUp(s.byDay)
    ensures var s' := Step(display, s, e); SumValues(s'.byModel) == s'.prompt + s'.completion && DaysAddUp(s'.byDay)
  {
    SumAdded(s.byModel, ModelOf(display, e), Tokens(e));
    DayKeepsSplit(s.byDay, ModelOf(display, e), e);
  }

  ghost function DayTokens(byDay: map<string, DayAgg>): map<string, nat> {
    map day | day in byDay :: byDay[day].tokens
  }

  lemma {:induction false} DayTokensMore(byDay: map<string, DayAgg>, model: string, e: Event)
    ensures var before := DayTokens(byDay);
            DayTokens(byDay[e.day := AddToDay(DayOf(byDay, e.day), model, e)]) ==
              before[e.day := Get(before, e.day) + Tokens(e)]
  {
  }

  /** The days' tokens and those of events without a day are the total usage. */
  lemma {:induction false} DaysSumToTotal(display: string -> string, events: seq<Event>)
    ensures var s := Folded(display, events);
            SumValues(DayTokens(s.byDay)) + Sum(events, (e: Event) => When(e.day == "", Tokens(e))) ==
              s.prompt + s.completion
  {
    if events == [] {
      assert DayTokens(Folded(display, events).byDay) == map[];
    } else {
      var n := |events| - 1;
      DaysSumToTotal(display, events[..n]);
      DaysStep(display, Folded(display, events[..n]), events[n]);
    }
  }

  lemma {:induction false} DaysStep(display: string -> string, s: Stats, e: Event)
    ensures SumValues(DayTokens(Step(display, s, e).byDay)) ==
            SumValues(DayTokens(s.byDay)) + When(e.day != "", Tokens(e))
  {
    if e.day != "" {
      DayTokensMore(s.byDay, ModelOf(display, e), e);
      SumAdded(DayTokens(s.byDay), e.day, Tokens(e));
    }
  }

  lemma {:induction false} SumIsZeroIff(events: seq<Event>, f: Event -> nat)
    ensures Sum(events, f) == 0 <==> forall i :: 0 <= i < |events| ==> f(events[i]) == 0
  {
    if events != [] {
      var n := |events| - 1;
      SumIsZeroIff(events[..n], f);
      assert forall i :: 0 <= i < n ==> events[..n][i] == events[i];
    }
  }

  /** The days alone sum to the total exactly when no event without a day has tokens. */
  lemma {:induction false} DaysSumToTotalIff(display: string -> string, events: seq<Event>)
    ensures var s := Folded(display, events);
            SumValues(DayTokens(s.byDay)) == s.prompt + s.completion <==>
            forall i :: 0 <= i < |events| && events[i].day == "" ==> Tokens(events[i]) == 0
  {
    var f := (e: Event) => When(e.day == "", Tokens(e));
    DaysSumToTotal(display, events);
    SumIsZeroIff(events, f);
    assert forall i :: 0 <= i < |events| ==> f(events[i]) == When(events[i].day == "", Tokens(events[i]));
  }

  function Sum(events: seq<Event>, f: Event -> nat): nat {
    if events == [] then 0 else Sum(events[..|events| - 1], f) + f(events[|events| - 1])
  }

  function When(p: bool, n: nat): nat {
    if p then n else 0
  }

  /** Requests count for the model they name, or for `unknown`. */
  lemma {:induction false} CountedModel(display: string -> string, e: Event, name: string)
    ensures e.model == None ==> ModelOf(display, e) == display("unknown")
    ensures e.model == Some(name) ==> ModelOf(display, e) == display(name)
    ensures Tokens(e) == e.prompt + e.completion
  {
  }

  /** What each number of the fold counts. */
  lemma {:induction false} FoldCounts(display: string -> string, events: seq<Event>, model: string, day: string)
    requires day != ""
    ensures var s := Folded(display, events);
            && s.prompt == Sum(events, (e: Event) => e.prompt)
            && s.completion == Sum(events, (e: Event) => e.completion)
            && s.cached == Sum(events, (e: Event) => e.cached)
            && s.requests == |events|
            && Get(s.byModel, model) == Sum(events, (e: Event) => When(ModelOf(display, e) == model, Tokens(e)))
            && DayOf(s.byDay, day).tokens == Sum(events, (e: Event) => When(e.day == day, Tokens(e)))
            && DayOf(s.byDay, day).requests == Sum(events, (e: Event) => When(e.day == day, 1))
            && DayOf(s.byDay, day).prompt == Sum(events, (e: Event) => When(e.day == day, e.prompt))
            && DayOf(s.byDay, day).cached == Sum(events, (e: Event) => When(e.day == day, e.cached))
            && Get(DayOf(s.byDay, day).byModel, model) ==
                 Sum(events, (e: Event) => When(e.day == day && ModelOf(display, e) == model, Tokens(e)))
  {
    if events != [] {
      FoldCounts(display, events[..|events| - 1], model, day);
    }
  }

  // ----- local and remote traffic

  function Filter(events: seq<Event>, keep: Event -> bool): seq<Event> {
    if events == [] then []
    else Filter(events[..|events| - 1], keep) + if keep(events[|events| - 1]) then [events[|events| - 1]] else []
  }

  predicate EndsWith(s: string, suffix: string) {
    |suffix| <= |s| && s[|s| - |suffix|..] == suffix
  }

  lemma {:induction false} EndsWithIff(s: string, suffix: string)
    ensures EndsWith(s, suffix) <==> exists head :: s == head + suffix
  {
    if EndsWith(s, suffix) { assert s == s[..|s| - |suffix|] + suffix; }
  }

  predicate IsLocalEngineModel(m: string) {
    || m == "ninfer" || EndsWith(m, ".ninfer") || EndsWith(m, ".gguf") || EndsWith(m, ".safetensors")
    || EndsWith(m, ".bin")
  }

  /** The logged source decides; without one, a model the local engine cannot have is remote. */
  predicate IsRemote(e: Event) {
    if e.source == Some("remote") then true
    else if e.source == Some("local") then false
    else e.model.Some? && !IsLocalEngineModel(e.model.value)
  }

  /** The events of a request for statistics. */
  function Selected(events: seq<Event>, cutoffMs: nat, nowMs: nat, source: string): seq<Event> {
    Filter(Filter(events, (e: Event) => cutoffMs <= e.ts <= nowMs), WantedFrom(source))
  }

  predicate Wanted(source: string, e: Event) {
    if source == "remote" then IsRemote(e) else if source == "local" then !IsRemote(e) else true
  }

  /** All numbers of two folds add up to those of a third: in total, in both speeds, for the model, on
      the day, and for the model on the day. */
  ghost predicate AddUp(l: Stats, r: Stats, a: Stats, model: string, day: string) {
    && l.prompt + r.prompt == a.prompt && l.completion + r.completion == a.completion
    && l.cached + r.cached == a.cached && l.requests + r.requests == a.requests
    && SpeedsAddUp(l.prefill, r.prefill, a.prefill) && SpeedsAddUp(l.decode, r.decode, a.decode)
    && Get(l.byModel, model) + Get(r.byModel, model) == Get(a.byModel, model)
    && DayAddsUp(DayOf(l.byDay, day), DayOf(r.byDay, day), DayOf(a.byDay, day), model)
  }

  ghost predicate SpeedsAddUp(l: Speed, r: Speed, a: Speed) {
    l.tokens + r.tokens == a.tokens && l.secs + r.secs == a.secs
  }

  ghost predicate DayAddsUp(l: DayAgg, r: DayAgg, a: DayAgg, model: string) {
    && l.tokens + r.tokens == a.tokens && l.requests + r.requests == a.requests
    && l.prompt + r.prompt == a.prompt && l.cached + r.cached == a.cached
    && Get(l.byModel, model) + Get(r.byModel, model) == Get(a.byModel, model)
  }

  lemma {:induction false} StepAddsUp(display: string -> string, l: Stats, r: Stats, a: Stats, e: Event, model: string,
      day: string)
    requires AddUp(l, r, a, model, day)
    ensures AddUp(Step(display, l, e), r, Step(display, a, e), model, day)
  {
    var m := ModelOf(display, e);
    SpeedStep(l.prefill, r.prefill, a.prefill, Uncached(e), e.promptTokPerSec);
    SpeedStep(l.decode, r.decode, a.decode, e.completion, e.decodeTokPerSec);
    DayStep(l.byDay, DayOf(r.byDay, day), a.byDay, m, e, model, day);
  }

  lemma {:induction false} SpeedStep(l: Speed, r: Speed, a: Speed, tokens: nat, rate: Option<real>)
    requires SpeedsAddUp(l, r, a)
    ensures SpeedsAddUp(AddSpeed(l, tokens, rate), r, AddSpeed(a, tokens, rate))
  {
  }

  lemma {:induction false} DayStep(l: map<string, DayAgg>, r: DayAgg, a: map<string, DayAgg>, m: string, e: Event,
      model: string, day: string)
    requires DayAddsUp(DayOf(l, day), r, DayOf(a, day), model)
    ensures DayAddsUp(DayOf(l[e.day := AddToDay(DayOf(l, e.day), m, e)], day), r,
                      DayOf(a[e.day := AddToDay(DayOf(a, e.day), m, e)], day), model)
  {
  }

  lemma {:induction false} AddUpCommutes(l: Stats, r: Stats, a: Stats, model: string, day: string)
    requires AddUp(l, r, a, model, day)
    ensures AddUp(r, l, a, model, day)
  {
  }

  lemma {:induction false} FoldFiltered(display: string -> string, events: seq<Event>, keep: Event -> bool)
    requires events != []
    ensures var n := |events| - 1;
            var s := Folded(display, Filter(events[..n], keep));
            Folded(display, Filter(events, keep)) == if keep(events[n]) then Step(display, s, events[n]) else s
  {
    var n := |events| - 1;
    FoldMore(display, Filter(events[..n], keep), events[n]);
    assert Filter(events[..n], keep) + [] == Filter(events[..n], keep);
  }

  ghost predicate Complement(p: Event -> bool, q: Event -> bool) {
    forall e :: q(e) == !p(e)
  }

  lemma {:induction false} NothingAddsUp(s: Stats, model: string, day: string)
    requires s == NO_STATS
    ensures AddUp(s, s, s, model, day)
  {
    assert Get(s.byModel, model) == 0;
    assert SpeedsAddUp(s.prefill, s.prefill, s.prefill);
    NothingOnDay(DayOf(s.byDay, day), model);
  }

  lemma {:induction false} NothingOnDay(d: DayAgg, model: string)
    requires d == DayAgg(0, 0, 0, 0, map[])
    ensures DayAddsUp(d, d, d, model)
  {
  }

  lemma {:induction false} NothingFiltered(display: string -> string, events: seq<Event>, keep: Event -> bool)
    requires events == []
    ensures Folded(display, Filter(events, keep)) == Folded(display, events) == NO_STATS
  {
  }

  lemma {:induction false} FoldPartition(display: string -> string, events: seq<Event>, p: Event -> bool,
      q: Event -> bool, model: string, day: string)
    requires Complement(p, q)
    ensures AddUp(Folded(display, Filter(events, p)), Folded(display, Filter(events, q)), Folded(display, events),
            model, day)
  {
    if events == [] {
      NothingFiltered(display, events, p);
      NothingFiltered(display, events, q);
      NothingAddsUp(Folded(display, events), model, day);
    } else {
      FoldPartition(display, events[..|events| - 1], p, q, model, day);
      PartitionMore(display, events, p, q, model, day);
    }
  }

  lemma {:induction false} PartitionMore(display: string -> string, events: seq<Event>, p: Event -> bool,
      q: Event -> bool, model: string, day: string)
    requires events != [] && Complement(p, q)
    requires var before := events[..|events| - 1];
             AddUp(Folded(display, Filter(before, p)), Folded(display, Filter(before, q)), Folded(display, before),
               model, day)
    ensures AddUp(Folded(display, Filter(events, p)), Folded(display, Filter(events, q)), Folded(display, events),
            model, day)
  {
    var n := |events| - 1;
    var l, r := Folded(display, Filter(events[..n], p)), Folded(display, Filter(events[..n], q));
    var a := Folded(display, events[..n]);
    FoldFiltered(display, events, p);
    FoldFiltered(display, events, q);
    OneMore(display, l, r, a, events[n], p(events[n]), model, day);
  }

  /** The next event goes to one of the two folds and to the whole. */
  lemma {:induction false} OneMore(display: string -> string, l: Stats, r: Stats, a: Stats, e: Event, left: bool,
      model: string, day: string)
    requires AddUp(l, r, a, model, day)
    ensures AddUp(if left then Step(display, l, e) else l, if left then r else Step(display, r, e),
                  Step(display, a, e), model, day)
  {
    if left {
      StepAddsUp(display, l, r, a, e, model, day);
    } else {
      AddUpCommutes(l, r, a, model, day);
      StepAddsUp(display, r, l, a, e, model, day);
      AddUpCommutes(Step(display, r, e), l, Step(display, a, e), model, day);
    }
  }

  lemma {:induction false} FilterAll(events: seq<Event>, p: Event -> bool)
    requires forall e :: p(e)
    ensures Filter(events, p) == events
  {
    if events != [] {
      FilterAll(events[..|events| - 1], p);
      assert events == events[..|events| - 1] + [events[|events| - 1]];
    }
  }

  /** Local and remote statistics add up to the unfiltered ones. */
  lemma {:induction false} LocalPlusRemoteIsAll(display: string -> string, events: seq<Event>, cutoffMs: nat,
      nowMs: nat, model: string, day: string)
    ensures AddUp(Folded(display, Selected(events, cutoffMs, nowMs, "local")),
                  Folded(display, Selected(events, cutoffMs, nowMs, "remote")),
                  Folded(display, Selected(events, cutoffMs, nowMs, "all")), model, day)
  {
    var window := Filter(events, (e: Event) => cutoffMs <= e.ts <= nowMs);
    var local, remote, all := WantedFrom("local"), WantedFrom("remote"), WantedFrom("all");
    FilterAll(window, all);
    FoldPartition(display, window, local, remote, model, day);
  }

  lemma {:induction false} FilterHas(events: seq<Event>, keep: Event -> bool, e: Event)
    ensures e in Filter(events, keep) <==> e in events && keep(e)
  {
    if events != [] {
      var n := |events| - 1;
      FilterHas(events[..n], keep, e);
      assert events == events[..n] + [events[n]];
    }
  }

  /** Which events a request for statistics sees: those of its window; of these, for `remote`, the ones logged as
      remote, or, where no known source is logged, of a model that no local engine has; for `local`, the others;
      and for anything else all. */
  lemma {:induction false} SelectedHas(events: seq<Event>, cutoffMs: nat, nowMs: nat, source: string, e: Event)
    ensures var m := Or(e.model, "ninfer");
            var byModel := !(m == "ninfer" || EndsWith(m, ".ninfer") || EndsWith(m, ".gguf") ||
                             EndsWith(m, ".safetensors") || EndsWith(m, ".bin"));
            var remote := e.source == Some("remote") || (e.source != Some("local") && byModel);
            e in Selected(events, cutoffMs, nowMs, source) <==>
            && e in events && cutoffMs <= e.ts && e.ts <= nowMs
            && (source == "remote" ==> remote) && (source == "local" ==> !remote)
  {
    var window := (e: Event) => cutoffMs <= e.ts <= nowMs;
    FilterHas(events, window, e);
    FilterHas(Filter(events, window), WantedFrom(source), e);
  }

  function WantedFrom(source: string): Event -> bool {
    (e: Event) => Wanted(source, e)
  }

  // ----- average speeds

  function Average(s: Speed): Option<real> {
    if s.secs > 0.0 then Some(s.tokens as real / s.secs) else None
  }

  predicate RatesWithin(events: seq<Event>, tokens: Event -> nat, rate: Event -> Option<real>, lo: real, hi: real) {
    forall i :: 0 <= i < |events| && Contributes(tokens(events[i]), rate(events[i])) ==>
      lo <= rate(events[i]).value <= hi
  }

  function SpeedOver(events: seq<Event>, tokens: Event -> nat, rate: Event -> Option<real>): Speed {
    if events == [] then Speed(0, 0.0)
    else AddSpeed(SpeedOver(events[..|events| - 1], tokens, rate), tokens(events[|events| - 1]),
      rate(events[|events| - 1]))
  }

  lemma {:induction false} Between(n: real, rate: real, lo: real, hi: real)
    requires n > 0.0 && 0.0 < rate && lo <= rate <= hi
    ensures n / rate > 0.0 && lo * (n / rate) <= n <= hi * (n / rate)
  {
    var q := n / rate;
    assert q * rate == n;
  }

  ghost predicate Bounded(s: Speed, lo: real, hi: real) {
    0.0 <= s.secs && lo * s.secs <= s.tokens as real <= hi * s.secs
  }

  lemma {:induction false} WeightedBounds(events: seq<Event>, tokens: Event -> nat, rate: Event -> Option<real>,
      lo: real, hi: real)
    requires RatesWithin(events, tokens, rate, lo, hi)
    ensures Bounded(SpeedOver(events, tokens, rate), lo, hi)
  {
    if events != [] {
      var n := |events| - 1;
      assert RatesWithin(events[..n], tokens, rate, lo, hi) by {
        assert forall i :: 0 <= i < n ==> events[..n][i] == events[i];
      }
      WeightedBounds(events[..n], tokens, rate, lo, hi);
      AddedSpeedBounds(SpeedOver(events[..n], tokens, rate), tokens(events[n]), rate(events[n]), lo, hi);
    }
  }

  lemma {:induction false} AddedSpeedBounds(s: Speed, tokens: nat, rate: Option<real>, lo: real, hi: real)
    requires Bounded(s, lo, hi)
    requires Contributes(tokens, rate) ==> lo <= rate.value <= hi
    ensures Bounded(AddSpeed(s, tokens, rate), lo, hi)
  {
    if Contributes(tokens, rate) {
      Between(tokens as real, rate.value, lo, hi);
    }
  }

  ghost predicate SomeContributes(events: seq<Event>, tokens: Event -> nat, rate: Event -> Option<real>) {
    exists i :: 0 <= i < |events| && Contributes(tokens(events[i]), rate(events[i]))
  }

  lemma {:induction false} SecondsIffContribution(events: seq<Event>, tokens: Event -> nat, rate: Event -> Option<real>)
    ensures var s := SpeedOver(events, tokens, rate);
            s.secs >= 0.0 && (s.secs > 0.0 <==> SomeContributes(events, tokens, rate))
  {
    if events != [] {
      var n := |events| - 1;
      SecondsIffContribution(events[..n], tokens, rate);
      if Contributes(tokens(events[n]), rate(events[n])) {
        Between(tokens(events[n]) as real, rate(events[n]).value, rate(events[n]).value, rate(events[n]).value);
      }
      assert SomeContributes(events, tokens, rate) <==>
             SomeContributes(events[..n], tokens, rate) || Contributes(tokens(events[n]), rate(events[n])) by {
        if SomeContributes(events[..n], tokens, rate) {
          var i :| 0 <= i < n && Contributes(tokens(events[..n][i]), rate(events[..n][i]));
          assert Contributes(tokens(events[i]), rate(events[i]));
        }
        if SomeContributes(events, tokens, rate) {
          var i :| 0 <= i < |events| && Contributes(tokens(events[i]), rate(events[i]));
          assert i < n ==> events[..n][i] == events[i];
        }
      }
    }
  }

  lemma {:induction false} FoldSpeeds(display: string -> string, events: seq<Event>)
    ensures Folded(display, events).prefill == SpeedOver(events, Uncached, (e: Event) => e.promptTokPerSec)
    ensures Folded(display, events).decode ==
            SpeedOver(events, (e: Event) => e.completion, (e: Event) => e.decodeTokPerSec)
  {
    if events != [] { FoldSpeeds(display, events[..|events| - 1]); }
  }

  function RealSum(events: seq<Event>, f: Event -> real): real {
    if events == [] then 0.0 else RealSum(events[..|events| - 1], f) + f(events[|events| - 1])
  }

  /** Tokens at a logged speed take so many seconds; without a positive speed they are not counted. */
  function Timed(rate: Option<real>, tokens: int): (nat, real) {
    if rate.Some? && rate.value > 0.0 && tokens > 0 then (tokens, tokens as real / rate.value) else (0, 0.0)
  }

  /** What the speeds sum: prompt tokens that were not cached, and generated tokens, each only where its speed was
      logged; the average is their quotient. */
  lemma {:induction false} SpeedsCount(display: string -> string, events: seq<Event>)
    ensures var s := Folded(display, events).prefill;
            && s.tokens == Sum(events, (e: Event) => Timed(e.promptTokPerSec, e.prompt - e.cached).0)
            && s.secs == RealSum(events, (e: Event) => Timed(e.promptTokPerSec, e.prompt - e.cached).1)
            && (s.secs > 0.0 ==> Average(s) == Some(s.tokens as real / s.secs))
    ensures var s := Folded(display, events).decode;
            && s.tokens == Sum(events, (e: Event) => Timed(e.decodeTokPerSec, e.completion).0)
            && s.secs == RealSum(events, (e: Event) => Timed(e.decodeTokPerSec, e.completion).1)
            && (s.secs > 0.0 ==> Average(s) == Some(s.tokens as real / s.secs))
  {
    FoldSpeeds(display, events);
    PrefillSums(events);
    DecodeSums(events);
  }

  lemma {:induction false} PrefillSums(events: seq<Event>)
    ensures var s := SpeedOver(events, Uncached, (e: Event) => e.promptTokPerSec);
            && s.tokens == Sum(events, (e: Event) => Timed(e.promptTokPerSec, e.prompt - e.cached).0)
            && s.secs == RealSum(events, (e: Event) => Timed(e.promptTokPerSec, e.prompt - e.cached).1)
  {
    if events != [] { PrefillSums(events[..|events| - 1]); }
  }

  lemma {:induction false} DecodeSums(events: seq<Event>)
    ensures var s := SpeedOver(events, (e: Event) => e.completion, (e: Event) => e.decodeTokPerSec);
            && s.tokens == Sum(events, (e: Event) => Timed(e.decodeTokPerSec, e.completion).0)
            && s.secs == RealSum(events, (e: Event) => Timed(e.decodeTokPerSec, e.completion).1)
  {
    if events != [] { DecodeSums(events[..|events| - 1]); }
  }

  lemma {:induction false} QuotientWithin(tokens: real, secs: real, lo: real, hi: real)
    requires secs > 0.0 && lo * secs <= tokens <= hi * secs
    ensures lo <= tokens / secs <= hi
  {
    var q := tokens / secs;
    assert q * secs == tokens;
    assert (q - lo) * secs >= 0.0 && (hi - q) * secs >= 0.0;
  }

  /** A weighted average exists exactly when something contributes to it, and lies between any bounds
      on the speeds that do. */
  ghost predicate IsAverage(a: Option<real>, events: seq<Event>, tokens: Event -> nat, rate: Event -> Option<real>,
      lo: real, hi: real) {
    && (a.Some? <==> SomeContributes(events, tokens, rate))
    && (a.Some? && RatesWithin(events, tokens, rate, lo, hi) ==> lo <= a.value <= hi)
  }

  lemma {:induction false} AveragesAreBetween(display: string -> string, events: seq<Event>, lo: real, hi: real)
    ensures IsAverage(Average(Folded(display, events).prefill), events, Uncached, (e: Event) => e.promptTokPerSec, lo,
            hi)
    ensures IsAverage(Average(Folded(display, events).decode), events, (e: Event) => e.completion,
            (e: Event) => e.decodeTokPerSec, lo, hi)
  {
    FoldSpeeds(display, events);
    OneAverage(events, Uncached, (e: Event) => e.promptTokPerSec, lo, hi);
    OneAverage(events, (e: Event) => e.completion, (e: Event) => e.decodeTokPerSec, lo, hi);
  }

  lemma {:induction false} OneAverage(events: seq<Event>, tokens: Event -> nat, rate: Event -> Option<real>, lo: real,
      hi: real)
    ensures IsAverage(Average(SpeedOver(events, tokens, rate)), events, tokens, rate, lo, hi)
  {
    SecondsIffContribution(events, tokens, rate);
    if RatesWithin(events, tokens, rate, lo, hi) {
      WeightedBounds(events, tokens, rate, lo, hi);
      AverageWithin(SpeedOver(events, tokens, rate), lo, hi);
    }
  }

  lemma {:induction false} AverageWithin(s: Speed, lo: real, hi: real)
    requires Bounded(s, lo, hi)
    ensures Average(s).Some? ==> lo <= Average(s).value <= hi
  {
    if s.secs > 0.0 { QuotientWithin(s.tokens as real, s.secs, lo, hi); }
  }
}
