/**
 * The per-city orchestration of the monitoring run: read the registry, then for
 * every city fetch the series, aggregate, call the model, save the history row
 * and save the insight row, with each city's failure caught at the city boundary.
 *
 * External steps (registry read, weather fetch, model call, the two inserts)
 * are not executed here: their outcomes are inputs, one `Outcome` per city
 * attempted.  Their effects are appends to four sequences: the model calls
 * made, the `historico_clima` rows, the `insights_gemini` rows, and the error
 * reports printed.
 */
module Pipeline {
  import opened Common
  import opened Window
  import opened Cleanup
  import opened Insight

  /** A row of the `cidades` table, as `dict(zip(colunas, row))` builds it. */
  datatype City = City(
    id: int,
    name: Option<string>,   // `nome_cidade`; a NULL name makes `.upper()` raise
    region: string,
    latitude: real,
    longitude: real,
    altitude: real,
    timezone: string,
    baselineRisk: real)

  /** What the external steps of one city's attempt do. */
  datatype Outcome = Outcome(
    fetch: Option<Series>,     // the Open-Meteo response, or `None` when the fetch raises
    reply: Option<string>,     // `response.text` of the model, or `None` when the call raises
    historyInsertOk: bool,     // the `historico_clima` insert commits
    insightInsertOk: bool)     // the `insights_gemini` insert commits

  /** A request to the generative model, with the two aggregates the prompt embeds. */
  datatype ModelCall = ModelCall(cityId: int, accumulated24h: real, forecast3h: real)

  /** Row of the `historico_clima` table (the server timestamp is omitted). */
  datatype HistoryRow = HistoryRow(cityId: int, observation: Observation)

  /** The error reports printed by the handlers. */
  datatype ErrorReport =
    | RegistryReadFailed
    | HistorySaveFailed(cityId: int)
    | InsightFailed(cityId: int, raw: string)   // carries the raw reply as received
    | CityFailed(name: Option<string>)

  /** Everything a run appends, in order. */
  datatype Effects = Effects(
    modelCalls: seq<ModelCall>,
    history: seq<HistoryRow>,
    insights: seq<InsightRow>,
    errors: seq<ErrorReport>)
  {
    function Plus(e: Effects): Effects
    {
      Effects(modelCalls + e.modelCalls, history + e.history, insights + e.insights, errors + e.errors)
    }
  }

  const NoEffects := Effects([], [], [], [])

  function Report(r: ErrorReport): Effects
  {
    Effects([], [], [], [r])
  }

  // ---------------------------------------------------------------------
  // Specification of each step

  /** `obter_cidades_para_monitoramento`: a failed read degrades to the empty list. */
  function RegistryCities(read: Option<seq<City>>): seq<City>
  {
    if read.Some? then read.value else []
  }

  function RegistryEffects(read: Option<seq<City>>): Effects
  {
    if read.Some? then NoEffects else Report(RegistryReadFailed)
  }

  /** `salvar_historico_clima`: one row, or an error report when the insert fails. */
  function HistoryEffects(cityId: int, obs: Observation, insertOk: bool): Effects
  {
    if insertOk then Effects([], [HistoryRow(cityId, obs)], [], [])
    else Report(HistorySaveFailed(cityId))
  }

  /** `salvar_e_exibir_insight`: one row when the gate passes and the insert commits,
      otherwise a report holding the raw reply. */
  function InsightEffects(cityId: int, raw: string, parse: Parser, insertOk: bool): Effects
  {
    match RowFromReply(cityId, raw, parse)
    case Some(row) =>
      if insertOk then Effects([], [], [row], []) else Report(InsightFailed(cityId, raw))
    case None => Report(InsightFailed(cityId, raw))
  }

  /** The city's attempt gets past the model call and the index-24 read. */
  predicate ReachesSaves(c: City, o: Outcome)
  {
    c.name.Some? && o.fetch.Some? && o.reply.Some? && RepresentativeHour(o.fetch.value).Some?
  }

  /**
   * One iteration of the loop of `executar_pipeline`, the `try` body and its
   * handler: the model is called with the two aggregates, then the three
   * values at offset 24 are read, then the history row is saved, then the
   * reply is cleaned, parsed and saved.
   */
  function CityEffects(c: City, o: Outcome, parse: Parser): Effects
  {
    if c.name.None? || o.fetch.None? then Report(CityFailed(c.name))
    else
      var p := o.fetch.value.precipitation;
      var call := Effects([ModelCall(c.id, Accumulated24h(p), Forecast3h(p))], [], [], []);
      if o.reply.None? then call.Plus(Report(CityFailed(c.name)))
      else match RepresentativeHour(o.fetch.value)
        case None => call.Plus(Report(CityFailed(c.name)))
        case Some(obs) =>
          call.Plus(HistoryEffects(c.id, obs, o.historyInsertOk))
              .Plus(InsightEffects(c.id, o.reply.value, parse, o.insightInsertOk))
  }

  /** The effects of a sequence of steps, one after the other. */
  function Flatten(es: seq<Effects>): Effects
    decreases |es|
  {
    if es == [] then NoEffects else Flatten(es[..|es| - 1]).Plus(es[|es| - 1])
  }

  /** `f` applied to the pairs of two equally long lists, in list order. */
  function MapPairs<A, B, R>(xs: seq<A>, ys: seq<B>, f: (A, B) -> R): seq<R>
    requires |ys| == |xs|
    decreases |xs|
  {
    if xs == [] then []
    else MapPairs(xs[..|xs| - 1], ys[..|ys| - 1], f) + [f(xs[|xs| - 1], ys[|ys| - 1])]
  }

  /** One city's attempt, as a function of the city and its outcome. */
  function Step(parse: Parser): (City, Outcome) -> Effects
  {
    (c, o) => CityEffects(c, o, parse)
  }

  /** The attempt of every city of the list, in list order. */
  function Attempts(cs: seq<City>, os: seq<Outcome>, parse: Parser): seq<Effects>
    requires |os| == |cs|
  {
    MapPairs(cs, os, Step(parse))
  }

  /** `CityEffects` unfolded into its three cases, in the form the steps of
      `Store.ProcessCity` follow. */
  lemma CitySteps(c: City, o: Outcome, parse: Parser)
    ensures c.name.None? || o.fetch.None? ==> CityEffects(c, o, parse) == Report(CityFailed(c.name))
    ensures c.name.Some? && o.fetch.Some? ==>
      var p := o.fetch.value.precipitation;
      var call := Effects([ModelCall(c.id, Accumulated24h(p), Forecast3h(p))], [], [], []);
      if ReachesSaves(c, o) then
        CityEffects(c, o, parse) ==
          call.Plus(HistoryEffects(c.id, RepresentativeHour(o.fetch.value).value, o.historyInsertOk))
              .Plus(InsightEffects(c.id, o.reply.value, parse, o.insightInsertOk))
      else
        CityEffects(c, o, parse) == call.Plus(Report(CityFailed(c.name)))
  {
  }

  /** The whole loop: the cities in list order, each attempted once. */
  function RunEffects(cs: seq<City>, os: seq<Outcome>, parse: Parser): Effects
    requires |os| == |cs|
  {
    Flatten(Attempts(cs, os, parse))
  }

  /** The entry point: read the registry, and run the pipeline if it returned any city. */
  function MonitorEffects(read: Option<seq<City>>, os: seq<Outcome>, parse: Parser): Effects
    requires |os| == |RegistryCities(read)|
  {
    var cs := RegistryCities(read);
    RegistryEffects(read).Plus(if |cs| > 0 then RunEffects(cs, os, parse) else NoEffects)
  }

  // ---------------------------------------------------------------------
  // The state: the four append-only logs, changed in place by the steps

  class Store {
    var modelCalls: seq<ModelCall>
    var history: seq<HistoryRow>      // `historico_clima`
    var insights: seq<InsightRow>     // `insights_gemini`
    var errors: seq<ErrorReport>      // the console's error reports

    function State(): Effects
      reads this
    {
      Effects(modelCalls, history, insights, errors)
    }

    constructor ()
      ensures State() == NoEffects
    {
      modelCalls, history, insights, errors := [], [], [], [];
    }

    method ReadRegistry(read: Option<seq<City>>) returns (cities: seq<City>)
      modifies this
      ensures cities == RegistryCities(read)
      ensures State() == old(State()).Plus(RegistryEffects(read))
    {
      if read.Some? {
        cities := read.value;
      } else {
        errors := errors + [RegistryReadFailed];
        cities := [];
      }
    }

    method SaveHistory(cityId: int, obs: Observation, insertOk: bool)
      modifies this
      ensures State() == old(State()).Plus(HistoryEffects(cityId, obs, insertOk))
    {
      if insertOk {
        history := history + [HistoryRow(cityId, obs)];
      } else {
        errors := errors + [HistorySaveFailed(cityId)];
      }
    }

    method SaveInsight(cityId: int, raw: string, parse: Parser, insertOk: bool)
      modifies this
      ensures State() == old(State()).Plus(InsightEffects(cityId, raw, parse, insertOk))
    {
      var cleaned := Clean(raw);
      var parsed := parse(cleaned);
      RowGate(cityId, raw, parse);
      if parsed.Some? && parsed.value.JObject? && insertOk {
        var fields := parsed.value.fields;
        insights := insights + [InsightRow(cityId, Get(fields, "nivel_risco"),
                                           Get(fields, "mensagem_alerta"), Get(fields, "recomendacao"))];
      } else {
        errors := errors + [InsightFailed(cityId, raw)];
      }
    }

    method ProcessCity(c: City, o: Outcome, parse: Parser)
      modifies this
      ensures State() == old(State()).Plus(CityEffects(c, o, parse))
    {
      CitySteps(c, o, parse);
      if c.name.None? || o.fetch.None? {
        errors := errors + [CityFailed(c.name)];
        return;
      }
      var w := o.fetch.value;
      var acc := Accumulated24h(w.precipitation);
      var fc := Forecast3h(w.precipitation);
      modelCalls := modelCalls + [ModelCall(c.id, acc, fc)];
      ghost var call := Effects([ModelCall(c.id, acc, fc)], [], [], []);
      if o.reply.None? {
        errors := errors + [CityFailed(c.name)];
        PlusAssociative(old(State()), call, Report(CityFailed(c.name)));
        return;
      }
      var obs := RepresentativeHour(w);
      if obs.None? {
        errors := errors + [CityFailed(c.name)];
        PlusAssociative(old(State()), call, Report(CityFailed(c.name)));
        return;
      }
      ghost var saved := HistoryEffects(c.id, obs.value, o.historyInsertOk);
      ghost var gated := InsightEffects(c.id, o.reply.value, parse, o.insightInsertOk);
      ghost var start := old(State());
      SaveHistory(c.id, obs.value, o.historyInsertOk);
      PlusAssociative(start, call, saved);
      SaveInsight(c.id, o.reply.value, parse, o.insightInsertOk);
      PlusAssociative(start, call.Plus(saved), gated);
    }

    method RunPipeline(cities: seq<City>, outcomes: seq<Outcome>, parse: Parser)
      requires |outcomes| == |cities|
      modifies this
      ensures State() == old(State()).Plus(RunEffects(cities, outcomes, parse))
    {
      for i := 0 to |cities|
        invariant State() == old(State()).Plus(RunEffects(cities[..i], outcomes[..i], parse))
      {
        ghost var done := Attempts(cities[..i], outcomes[..i], parse);
        ghost var e := CityEffects(cities[i], outcomes[i], parse);
        ProcessCity(cities[i], outcomes[i], parse);
        assert cities[..i + 1][..i] == cities[..i];
        assert outcomes[..i + 1][..i] == outcomes[..i];
        assert Attempts(cities[..i + 1], outcomes[..i + 1], parse) == done + [e];
        assert (done + [e])[..|done|] == done;
        PlusAssociative(old(State()), Flatten(done), e);
      }
      assert cities[..|cities|] == cities;
      assert outcomes[..|outcomes|] == outcomes;
    }

    method MonitorOnce(read: Option<seq<City>>, outcomes: seq<Outcome>, parse: Parser)
      requires |outcomes| == |RegistryCities(read)|
      modifies this
      ensures State() == old(State()).Plus(MonitorEffects(read, outcomes, parse))
    {
      var cities := ReadRegistry(read);
      ghost var afterRead := State();
      if |cities| > 0 {
        RunPipeline(cities, outcomes, parse);
        PlusAssociative(old(State()), RegistryEffects(read), RunEffects(cities, outcomes, parse));
      } else {
        assert afterRead.Plus(NoEffects) == afterRead;
      }
    }
  }

  // ---------------------------------------------------------------------
  // Properties of one city's attempt

  /**
   * At most one row per table and at most one model call; every row comes after
   * the model call, and the call carries the two window sums of the fetched series.
   */
  lemma CityEffectsShape(c: City, o: Outcome, parse: Parser)
    ensures var e := CityEffects(c, o, parse);
      |e.modelCalls| <= 1 && |e.history| <= |e.modelCalls| && |e.insights| <= |e.modelCalls|
    ensures var e := CityEffects(c, o, parse);
      |e.modelCalls| == 1 <==> (c.name.Some? && o.fetch.Some?)
    ensures var e := CityEffects(c, o, parse);
      |e.modelCalls| == 1 ==>
        e.modelCalls[0] == ModelCall(c.id, Accumulated24h(o.fetch.value.precipitation),
                                     Forecast3h(o.fetch.value.precipitation))
  {
  }

  /** The city gets a history row exactly when it gets past the index read and the insert
      commits; the row holds the values at offset 24. */
  lemma HistoryRowIff(c: City, o: Outcome, parse: Parser)
    ensures var e := CityEffects(c, o, parse);
      |e.history| == 1 <==> ReachesSaves(c, o) && o.historyInsertOk
    ensures var e := CityEffects(c, o, parse);
      |e.history| == 1 ==> e.history[0] == HistoryRow(c.id, RepresentativeHour(o.fetch.value).value)
  {
  }

  /** The city gets an insight row exactly when it gets past the index read, its cleaned
      reply parses to an object, and the insert commits; the history insert plays no part. */
  lemma InsightRowIff(c: City, o: Outcome, parse: Parser)
    ensures var e := CityEffects(c, o, parse);
      |e.insights| == 1 <==>
        ReachesSaves(c, o) && IsObject(parse(Clean(o.reply.value))) && o.insightInsertOk
    ensures var e := CityEffects(c, o, parse);
      |e.insights| == 1 ==> e.insights[0] == RowFromReply(c.id, o.reply.value, parse).value
  {
    if ReachesSaves(c, o) {
      RowGate(c.id, o.reply.value, parse);
    }
  }

  /** A failed fetch: no model call and no rows, only the city's failure report. */
  lemma FetchFailureOnlyReports(c: City, o: Outcome, parse: Parser)
    requires o.fetch.None?
    ensures CityEffects(c, o, parse) == Report(CityFailed(c.name))
  {
  }

  /** A model call that raises: the call was made, but the city gets no rows at all. */
  lemma ModelFailureNoRows(c: City, o: Outcome, parse: Parser)
    requires o.reply.None?
    ensures CityEffects(c, o, parse).history == [] && CityEffects(c, o, parse).insights == []
  {
  }

  /** A series with 24 or fewer entries in any of its three variables fails at the index
      read: the model has already been called for it, and the city gets no rows. */
  lemma ShortSeriesNoRows(c: City, o: Outcome, parse: Parser)
    requires o.fetch.Some?
    requires var w := o.fetch.value;
      |w.precipitation| <= 24 || |w.probability| <= 24 || |w.weatherCode| <= 24
    ensures CityEffects(c, o, parse).history == [] && CityEffects(c, o, parse).insights == []
    ensures c.name.Some? ==> |CityEffects(c, o, parse).modelCalls| == 1
  {
    RepresentativeHourAt(o.fetch.value);
  }

  /** Series of length 25 or 26 do not fail: the windows clamp, and the rows are written. */
  lemma ClampedSeriesSaves(c: City, o: Outcome, parse: Parser)
    requires c.name.Some? && o.fetch.Some? && o.reply.Some? && o.historyInsertOk
    requires var w := o.fetch.value;
      |w.precipitation| > 24 && |w.probability| > 24 && |w.weatherCode| > 24
    ensures CityEffects(c, o, parse).history ==
      [HistoryRow(c.id, Observation(o.fetch.value.precipitation[24], o.fetch.value.probability[24],
                                    TruncToInt(o.fetch.value.weatherCode[24])))]
  {
    RepresentativeHourAt(o.fetch.value);
  }

  /** A reply that does not parse to an object: the history row is already written,
      no insight row is, and the raw reply is reported. */
  lemma MalformedReplyKeepsHistory(c: City, o: Outcome, parse: Parser)
    requires ReachesSaves(c, o) && o.historyInsertOk
    requires !IsObject(parse(Clean(o.reply.value)))
    ensures |CityEffects(c, o, parse).history| == 1
    ensures CityEffects(c, o, parse).insights == []
    ensures CityEffects(c, o, parse).errors == [InsightFailed(c.id, o.reply.value)]
  {
    RowGate(c.id, o.reply.value, parse);
  }

  /** Every step succeeds and the reply is an object: one model call, one row in each
      table, no error report. */
  lemma FullSuccess(c: City, o: Outcome, parse: Parser)
    requires ReachesSaves(c, o) && o.historyInsertOk && o.insightInsertOk
    requires IsObject(parse(Clean(o.reply.value)))
    ensures CityEffects(c, o, parse) == Effects(
      [ModelCall(c.id, Accumulated24h(o.fetch.value.precipitation), Forecast3h(o.fetch.value.precipitation))],
      [HistoryRow(c.id, RepresentativeHour(o.fetch.value).value)],
      [RowFromReply(c.id, o.reply.value, parse).value],
      [])
  {
    RowGate(c.id, o.reply.value, parse);
  }

  /** A failed history insert is swallowed: the insight step for the same city still runs. */
  lemma HistoryFailureKeepsInsight(c: City, o: Outcome, parse: Parser)
    requires ReachesSaves(c, o) && !o.historyInsertOk && o.insightInsertOk
    requires IsObject(parse(Clean(o.reply.value)))
    ensures CityEffects(c, o, parse).history == []
    ensures CityEffects(c, o, parse).insights == [RowFromReply(c.id, o.reply.value, parse).value]
    ensures CityEffects(c, o, parse).errors == [HistorySaveFailed(c.id)]
  {
    RowGate(c.id, o.reply.value, parse);
  }

  // ---------------------------------------------------------------------
  // Properties of the whole loop

  lemma PlusAssociative(a: Effects, b: Effects, c: Effects)
    ensures a.Plus(b).Plus(c) == a.Plus(b.Plus(c))
  {
  }

  /** The effects of two sequences of steps run back to back. */
  lemma {:induction false} FlattenConcat(a: seq<Effects>, b: seq<Effects>)
    ensures Flatten(a + b) == Flatten(a).Plus(Flatten(b))
    decreases |b|
  {
    if b == [] {
      assert a + b == a;
    } else {
      var n := |b| - 1;
      assert (a + b)[..|a + b| - 1] == a + b[..n];
      FlattenConcat(a, b[..n]);
      PlusAssociative(Flatten(a), Flatten(b[..n]), b[n]);
    }
  }

  /** Steps that each make at most one model call and add no row without one
      add, together, at most one call per step and no more rows than calls. */
  lemma {:induction false} FlattenBounds(es: seq<Effects>)
    requires forall i :: 0 <= i < |es| ==>
      |es[i].history| <= |es[i].modelCalls| <= 1 && |es[i].insights| <= |es[i].modelCalls|
    ensures |Flatten(es).history| <= |Flatten(es).modelCalls| <= |es|
    ensures |Flatten(es).insights| <= |Flatten(es).modelCalls|
    decreases |es|
  {
    if es != [] {
      FlattenBounds(es[..|es| - 1]);
    }
  }

  /** Every row of a sequence of steps comes from one of the steps. */
  lemma {:induction false} FlattenRowsFrom(es: seq<Effects>)
    ensures forall r :: r in Flatten(es).history ==> exists i :: 0 <= i < |es| && r in es[i].history
    ensures forall r :: r in Flatten(es).insights ==> exists i :: 0 <= i < |es| && r in es[i].insights
    decreases |es|
  {
    if es != [] {
      var n := |es| - 1;
      FlattenRowsFrom(es[..n]);
      forall r | r in Flatten(es).history ensures exists i :: 0 <= i < |es| && r in es[i].history {
        if r !in es[n].history {
          var i :| 0 <= i < n && r in es[..n][i].history;
          assert es[..n][i] == es[i];
        }
      }
      forall r | r in Flatten(es).insights ensures exists i :: 0 <= i < |es| && r in es[i].insights {
        if r !in es[n].insights {
          var i :| 0 <= i < n && r in es[..n][i].insights;
          assert es[..n][i] == es[i];
        }
      }
    }
  }

  /** Steps that each make exactly one model call make them in step order. */
  lemma {:induction false} FlattenCallsInOrder(es: seq<Effects>)
    requires forall i :: 0 <= i < |es| ==> |es[i].modelCalls| == 1
    ensures |Flatten(es).modelCalls| == |es|
    ensures forall i :: 0 <= i < |es| ==> Flatten(es).modelCalls[i] == es[i].modelCalls[0]
    decreases |es|
  {
    if es != [] {
      var n := |es| - 1;
      FlattenCallsInOrder(es[..n]);
      forall i | 0 <= i < n ensures Flatten(es).modelCalls[i] == es[i].modelCalls[0] {
        assert es[..n][i] == es[i];
      }
    }
  }

  /** `MapPairs` has one result per pair, each `f` of that pair. */
  lemma {:induction false} MapPairsSpec<A, B, R>(xs: seq<A>, ys: seq<B>, f: (A, B) -> R)
    requires |ys| == |xs|
    ensures |MapPairs(xs, ys, f)| == |xs|
    ensures forall i :: 0 <= i < |xs| ==> MapPairs(xs, ys, f)[i] == f(xs[i], ys[i])
    decreases |xs|
  {
    if xs != [] {
      var n := |xs| - 1;
      MapPairsSpec(xs[..n], ys[..n], f);
      forall i | 0 <= i < n ensures MapPairs(xs, ys, f)[i] == f(xs[i], ys[i]) {
        assert xs[..n][i] == xs[i] && ys[..n][i] == ys[i];
      }
    }
  }

  /** `MapPairs` of a concatenation is the concatenation of the parts' results. */
  lemma {:induction false} MapPairsConcat<A, B, R>(xs1: seq<A>, ys1: seq<B>, xs2: seq<A>, ys2: seq<B>, f: (A, B) -> R)
    requires |ys1| == |xs1| && |ys2| == |xs2|
    ensures MapPairs(xs1 + xs2, ys1 + ys2, f) == MapPairs(xs1, ys1, f) + MapPairs(xs2, ys2, f)
    decreases |xs2|
  {
    if xs2 == [] {
      assert xs1 + xs2 == xs1 && ys1 + ys2 == ys1;
    } else {
      var n := |xs2| - 1;
      var xs, ys := xs1 + xs2, ys1 + ys2;
      assert xs[..|xs| - 1] == xs1 + xs2[..n];
      assert ys[..|ys| - 1] == ys1 + ys2[..n];
      var last := [f(xs2[n], ys2[n])];
      calc {
        MapPairs(xs, ys, f);
        MapPairs(xs1 + xs2[..n], ys1 + ys2[..n], f) + last;
        { MapPairsConcat(xs1, ys1, xs2[..n], ys2[..n], f); }
        (MapPairs(xs1, ys1, f) + MapPairs(xs2[..n], ys2[..n], f)) + last;
        MapPairs(xs1, ys1, f) + (MapPairs(xs2[..n], ys2[..n], f) + last);
        MapPairs(xs1, ys1, f) + MapPairs(xs2, ys2, f);
      }
    }
  }

  /** The attempts are the cities' own attempts, one per city, in list order. */
  lemma AttemptsSpec(cs: seq<City>, os: seq<Outcome>, parse: Parser)
    requires |os| == |cs|
    ensures |Attempts(cs, os, parse)| == |cs|
    ensures forall i :: 0 <= i < |cs| ==> Attempts(cs, os, parse)[i] == CityEffects(cs[i], os[i], parse)
  {
    MapPairsSpec(cs, os, Step(parse));
  }

  /** A one-city list has that city's attempt as its only attempt. */
  lemma AttemptsSingle(c: City, o: Outcome, parse: Parser)
    ensures Attempts([c], [o], parse) == [CityEffects(c, o, parse)]
  {
    assert [c][..0] == [] && [o][..0] == [];
    assert MapPairs([c], [o], Step(parse)) == MapPairs([], [], Step(parse)) + [Step(parse)(c, o)];
  }

  /** Running two lists back to back is running their concatenation. */
  lemma RunConcat(cs1: seq<City>, os1: seq<Outcome>, cs2: seq<City>, os2: seq<Outcome>, parse: Parser)
    requires |os1| == |cs1| && |os2| == |cs2|
    ensures RunEffects(cs1 + cs2, os1 + os2, parse) == RunEffects(cs1, os1, parse).Plus(RunEffects(cs2, os2, parse))
  {
    MapPairsConcat(cs1, os1, cs2, os2, Step(parse));
    FlattenConcat(Attempts(cs1, os1, parse), Attempts(cs2, os2, parse));
  }

  /** A single city's run is that city's attempt. */
  lemma RunSingle(c: City, o: Outcome, parse: Parser)
    ensures RunEffects([c], [o], parse) == CityEffects(c, o, parse)
  {
    var e := CityEffects(c, o, parse);
    var es := Attempts([c], [o], parse);
    AttemptsSingle(c, o, parse);
    assert es[..0] == [];
    assert Flatten(es) == Flatten([]).Plus(e);
    assert NoEffects.Plus(e) == e;
  }

  /**
   * Failure isolation: the effects of a run are those of the cities before `j`,
   * then city `j`'s own attempt, then those of the cities after `j`.  Whatever city
   * `j`'s outcome is, even a failure, it changes only its own contribution.
   */
  lemma CityIsolation(cs: seq<City>, os: seq<Outcome>, j: nat, o: Outcome, parse: Parser)
    requires |os| == |cs| && j < |cs|
    ensures RunEffects(cs, os[j := o], parse) ==
      RunEffects(cs[..j], os[..j], parse).Plus(CityEffects(cs[j], o, parse)).Plus(RunEffects(cs[j + 1..], os[j + 1..], parse))
  {
    assert cs == (cs[..j] + [cs[j]]) + cs[j + 1..];
    assert os[j := o] == (os[..j] + [o]) + os[j + 1..];
    RunConcat(cs[..j] + [cs[j]], os[..j] + [o], cs[j + 1..], os[j + 1..], parse);
    RunConcat(cs[..j], os[..j], [cs[j]], [o], parse);
    RunSingle(cs[j], o, parse);
  }

  /** Each city contributes at most one row to each table, so a run adds at most one
      model call per city and never more rows than model calls. */
  lemma RunRowBounds(cs: seq<City>, os: seq<Outcome>, parse: Parser)
    requires |os| == |cs|
    ensures var e := RunEffects(cs, os, parse);
      |e.history| <= |e.modelCalls| <= |cs| && |e.insights| <= |e.modelCalls|
  {
    var es := Attempts(cs, os, parse);
    AttemptsSpec(cs, os, parse);
    forall i | 0 <= i < |es|
      ensures |es[i].history| <= |es[i].modelCalls| <= 1 && |es[i].insights| <= |es[i].modelCalls|
    {
      CityEffectsShape(cs[i], os[i], parse);
    }
    FlattenBounds(es);
  }

  /** Every row a city's attempt adds carries that city's id. */
  lemma CityRowsCarryId(c: City, o: Outcome, parse: Parser)
    ensures forall r :: r in CityEffects(c, o, parse).history ==> r.cityId == c.id
    ensures forall r :: r in CityEffects(c, o, parse).insights ==> r.cityId == c.id
  {
    HistoryRowIff(c, o, parse);
    InsightRowIff(c, o, parse);
    CityEffectsShape(c, o, parse);
    if ReachesSaves(c, o) {
      RowGate(c.id, o.reply.value, parse);
    }
  }

  /** Every row of a run belongs to a city of the list. */
  lemma RunRowsBelong(cs: seq<City>, os: seq<Outcome>, parse: Parser)
    requires |os| == |cs|
    ensures forall r :: r in RunEffects(cs, os, parse).history ==> exists i :: 0 <= i < |cs| && cs[i].id == r.cityId
    ensures forall r :: r in RunEffects(cs, os, parse).insights ==> exists i :: 0 <= i < |cs| && cs[i].id == r.cityId
  {
    var es := Attempts(cs, os, parse);
    AttemptsSpec(cs, os, parse);
    FlattenRowsFrom(es);
    forall i | 0 <= i < |es|
      ensures forall r :: r in es[i].history ==> r.cityId == cs[i].id
      ensures forall r :: r in es[i].insights ==> r.cityId == cs[i].id
    {
      CityRowsCarryId(cs[i], os[i], parse);
    }
  }

  /** Every city whose fetch succeeds reaches the model exactly once, in list order. */
  lemma RunCallsInOrder(cs: seq<City>, os: seq<Outcome>, parse: Parser)
    requires |os| == |cs|
    requires forall i :: 0 <= i < |cs| ==> cs[i].name.Some? && os[i].fetch.Some?
    ensures var calls := RunEffects(cs, os, parse).modelCalls;
      |calls| == |cs| && forall i :: 0 <= i < |cs| ==> calls[i].cityId == cs[i].id
  {
    var es := Attempts(cs, os, parse);
    AttemptsSpec(cs, os, parse);
    forall i | 0 <= i < |es| ensures |es[i].modelCalls| == 1 && es[i].modelCalls[0].cityId == cs[i].id {
      CityEffectsShape(cs[i], os[i], parse);
    }
    FlattenCallsInOrder(es);
  }

  // ---------------------------------------------------------------------
  // The entry point

  /** A failed registry read is reported, and nothing else happens. */
  lemma RegistryFailureNoWork(os: seq<Outcome>, parse: Parser)
    requires |os| == 0
    ensures MonitorEffects(None, os, parse) == Report(RegistryReadFailed)
  {
  }

  /** An empty registry processes no city: no model call, no row, no report. */
  lemma EmptyRegistryNoWork(os: seq<Outcome>, parse: Parser)
    requires |os| == 0
    ensures MonitorEffects(Some([]), os, parse) == NoEffects
  {
  }

  /** The `if cidades:` guard does not change the outcome: the loop over no city is empty. */
  lemma GuardRedundant(read: Option<seq<City>>, os: seq<Outcome>, parse: Parser)
    requires |os| == |RegistryCities(read)|
    ensures MonitorEffects(read, os, parse) == RegistryEffects(read).Plus(RunEffects(RegistryCities(read), os, parse))
  {
  }

  /**
   * Two cities: the first succeeds throughout, the second gets a reply that does not
   * parse to an object.  Both history rows are written (the second as well, since the
   * reply is parsed after the history insert); only the first city has an insight row,
   * and the second's raw reply is reported.
   */
  lemma TwoCityScenario(a: City, oa: Outcome, b: City, ob: Outcome, parse: Parser)
    requires ReachesSaves(a, oa) && oa.historyInsertOk && oa.insightInsertOk
    requires IsObject(parse(Clean(oa.reply.value)))
    requires ReachesSaves(b, ob) && ob.historyInsertOk
    requires !IsObject(parse(Clean(ob.reply.value)))
    ensures var e := MonitorEffects(Some([a, b]), [oa, ob], parse);
      e.history == [HistoryRow(a.id, RepresentativeHour(oa.fetch.value).value),
                    HistoryRow(b.id, RepresentativeHour(ob.fetch.value).value)] &&
      e.insights == [RowFromReply(a.id, oa.reply.value, parse).value] &&
      e.errors == [InsightFailed(b.id, ob.reply.value)]
  {
    var ea, eb := CityEffects(a, oa, parse), CityEffects(b, ob, parse);
    assert RunEffects([a, b], [oa, ob], parse) == ea.Plus(eb) by {
      assert [a] + [b] == [a, b] && [oa] + [ob] == [oa, ob];
      RunConcat([a], [oa], [b], [ob], parse);
      RunSingle(a, oa, parse);
      RunSingle(b, ob, parse);
    }
    assert MonitorEffects(Some([a, b]), [oa, ob], parse) == NoEffects.Plus(ea.Plus(eb));
    FullSuccess(a, oa, parse);
    MalformedReplyKeepsHistory(b, ob, parse);
    HistoryRowIff(b, ob, parse);
  }
}
