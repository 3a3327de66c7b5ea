/** The session analytics of cloud_functions/analytics/main.py: one pass over the stored
    game sessions that counts them by status, sums moves and durations, tallies the
    mistake tags recorded with each move, and derives three guarded averages. */
module Analytics {
  import opened Wrappers

  /** One element of a session's `moves` log: a dict, whose `mistakes` list (empty when
      the key is missing) is tallied; a dict whose `mistakes` cannot be tallied, being
      no iterable (`None`, a number) or holding a tag that cannot key a dict (a list, a
      map); or anything else, which is skipped. */
  datatype MoveEntry = DictEntry(mistakes: seq<string>) | MalformedDictEntry | NonDictEntry

  /** A session's `moves` field: missing (read as an empty list), a list of entries,
      another value with a length whose elements are never dicts (a string or a map),
      or a value without a length (the move counter the gemini4 variant stores there). */
  datatype MovesField =
    | MovesMissing
    | MovesList(entries: seq<MoveEntry>)
    | MovesOtherSized(length: nat)
    | MovesUnsized

  /** The fields of a stored session the aggregator reads; `win` is its truthiness. */
  datatype SessionRecord = SessionRecord(status: Option<string>, win: bool, movesCount: Option<int>,
                                         gameDuration: Option<real>, moves: MovesField)

  /** The counters and sums of the pass (the mistake frequencies are kept apart). */
  datatype Tally = Tally(totalGames: nat, activeGames: nat, completedGames: nat, wins: nat,
                         optimalSolutions: nat, totalMovesInWins: int, totalDuration: real,
                         totalMovesMade: nat)

  /** The returned statistics. */
  datatype Analytics = Analytics(totalGames: nat, activeGames: nat, completedGames: nat, wins: nat,
                                 averageMoves: real, optimalSolutions: nat,
                                 commonMistakes: map<string, nat>, successRate: real,
                                 averageTime: real, totalMovesMade: nat)

  /** Why the whole batch fails: the sessions could not be fetched, `len` was applied
      to a `moves` value without a length, or the `mistakes` of a dict entry could not
      be iterated or counted. */
  datatype AnalyticsError = SourceUnavailable | UnsizedMoves | MalformedMistakes

  /** Moves of the known shortest solution, counted as optimal. */
  const OptimalMoves: int := 11

  predicate IsCompleted(r: SessionRecord) {
    r.status == Some("completed")
  }

  predicate IsWon(r: SessionRecord) {
    IsCompleted(r) && r.win
  }

  /** `moves_count`, with 0 when it is missing. */
  function MovesCount(r: SessionRecord): int {
    if r.movesCount.Some? then r.movesCount.value else 0
  }

  predicate IsOptimal(r: SessionRecord) {
    IsWon(r) && MovesCount(r) == OptimalMoves
  }

  /** The duration a completed session adds: its `game_duration` when present and non-zero. */
  function DurationOf(r: SessionRecord): real {
    if IsCompleted(r) && r.gameDuration.Some? && r.gameDuration.value != 0.0 then r.gameDuration.value else 0.0
  }

  predicate Sized(f: MovesField) {
    !f.MovesUnsized?
  }

  predicate AllSized(rs: seq<SessionRecord>) {
    forall i :: 0 <= i < |rs| ==> Sized(rs[i].moves)
  }

  /** `len(moves)`. */
  function MovesLength(f: MovesField): nat
    requires Sized(f)
  {
    match f
    case MovesMissing => 0
    case MovesList(es) => |es|
    case MovesOtherSized(n) => n
  }

  /** The elements of `moves` that can be dicts. */
  function MovesEntries(f: MovesField): seq<MoveEntry> {
    if f.MovesList? then f.entries else []
  }

  function EntryTags(e: MoveEntry): seq<string> {
    if e.DictEntry? then e.mistakes else []
  }

  /** No entry of `es` raises while its `mistakes` are tallied. */
  predicate Readable(es: seq<MoveEntry>) {
    forall j :: 0 <= j < |es| ==> !es[j].MalformedDictEntry?
  }

  /** The error one session raises: `len(moves)` comes first, the tally of its
      entries' `mistakes` after it. */
  function RecordFault(r: SessionRecord): Option<AnalyticsError> {
    if !Sized(r.moves) then Some(UnsizedMoves)
    else if !Readable(MovesEntries(r.moves)) then Some(MalformedMistakes)
    else None
  }

  /** The error of the first session of `rs` that raises, if any: the pass stops there. */
  function FirstFault(rs: seq<SessionRecord>): (f: Option<AnalyticsError>)
    ensures f.None? <==> forall i :: 0 <= i < |rs| ==> RecordFault(rs[i]).None?
    ensures f.Some? ==> exists i :: 0 <= i < |rs| && RecordFault(rs[i]) == f &&
                                    forall j :: 0 <= j < i ==> RecordFault(rs[j]).None?
    ensures f.None? ==> AllSized(rs)
    decreases |rs|
  {
    if rs == [] then None
    else
      var n := |rs| - 1;
      var before := FirstFault(rs[..n]);
      assert forall i :: 0 <= i < n ==> rs[..n][i] == rs[i];
      if before.Some? then before else RecordFault(rs[n])
  }

  /** A frequency map read as a `defaultdict(int)`. */
  function Get(m: map<string, nat>, tag: string): nat {
    if tag in m then m[tag] else 0
  }

  /** `m` after `common_mistakes[tag] += 1` for each tag in turn. */
  function AddTags(m: map<string, nat>, tags: seq<string>): map<string, nat>
    decreases |tags|
  {
    if tags == [] then m
    else
      var before := AddTags(m, tags[..|tags| - 1]);
      var tag := tags[|tags| - 1];
      before[tag := Get(before, tag) + 1]
  }

  /** `m` after the tags of each entry in turn. */
  function AddEntries(m: map<string, nat>, es: seq<MoveEntry>): map<string, nat>
    decreases |es|
  {
    if es == [] then m else AddTags(AddEntries(m, es[..|es| - 1]), EntryTags(es[|es| - 1]))
  }

  /** One iteration of the loop over the sessions. */
  function AddRecord(t: Tally, r: SessionRecord): Tally
    requires Sized(r.moves)
  {
    Tally(t.totalGames + 1,
          t.activeGames + (if IsCompleted(r) then 0 else 1),
          t.completedGames + (if IsCompleted(r) then 1 else 0),
          t.wins + (if IsWon(r) then 1 else 0),
          t.optimalSolutions + (if IsOptimal(r) then 1 else 0),
          t.totalMovesInWins + (if IsWon(r) then MovesCount(r) else 0),
          t.totalDuration + DurationOf(r),
          t.totalMovesMade + MovesLength(r.moves))
  }

  const EmptyTally: Tally := Tally(0, 0, 0, 0, 0, 0, 0.0, 0)

  /** The tally after the sessions `rs`, in order. */
  function TallyOf(rs: seq<SessionRecord>): Tally
    requires AllSized(rs)
    decreases |rs|
  {
    if rs == [] then EmptyTally
    else
      assert AllSized(rs[..|rs| - 1]) by {
        assert forall i :: 0 <= i < |rs| - 1 ==> rs[..|rs| - 1][i] == rs[i];
      }
      AddRecord(TallyOf(rs[..|rs| - 1]), rs[|rs| - 1])
  }

  /** `common_mistakes` after the sessions `rs`, in order. */
  function MistakesOf(rs: seq<SessionRecord>): map<string, nat>
    decreases |rs|
  {
    if rs == [] then map[] else AddEntries(MistakesOf(rs[..|rs| - 1]), MovesEntries(rs[|rs| - 1].moves))
  }

  /** The derived statistics: averages over wins and a success rate only when some
      completed session was won, an average duration whenever some session completed. */
  function Summarize(t: Tally, commonMistakes: map<string, nat>): (a: Analytics)
    ensures a.totalGames == t.totalGames && a.activeGames == t.activeGames
    ensures a.completedGames == t.completedGames && a.wins == t.wins
    ensures a.optimalSolutions == t.optimalSolutions && a.totalMovesMade == t.totalMovesMade
    ensures a.commonMistakes == commonMistakes
    ensures t.completedGames == 0 ==> a.averageMoves == 0.0 && a.successRate == 0.0 && a.averageTime == 0.0
    ensures t.wins == 0 ==> a.averageMoves == 0.0 && a.successRate == 0.0
    ensures t.completedGames > 0 && t.wins > 0 ==>
              && a.averageMoves * (t.wins as real) == t.totalMovesInWins as real
              && a.successRate * (t.completedGames as real) == 100.0 * (t.wins as real)
    ensures t.completedGames > 0 ==> a.averageTime * (t.completedGames as real) == t.totalDuration
  {
    var played := t.completedGames > 0 && t.wins > 0;
    Analytics(t.totalGames, t.activeGames, t.completedGames, t.wins,
              if played then (t.totalMovesInWins as real) / (t.wins as real) else 0.0,
              t.optimalSolutions, commonMistakes,
              if played then ((t.wins as real) / (t.completedGames as real)) * 100.0 else 0.0,
              if t.completedGames > 0 then t.totalDuration / (t.completedGames as real) else 0.0,
              t.totalMovesMade)
  }

  /** One more tag, as one more step of the innermost loop. */
  lemma AddTagsStep(m: map<string, nat>, tags: seq<string>, k: nat)
    requires k < |tags|
    ensures AddTags(m, tags[..k + 1]) == AddTags(m, tags[..k])[tags[k] := Get(AddTags(m, tags[..k]), tags[k]) + 1]
  {
    assert tags[..k + 1][..k] == tags[..k];
  }

  /** One more entry, as one more step of the loop over a session's moves. */
  lemma AddEntriesStep(m: map<string, nat>, es: seq<MoveEntry>, j: nat)
    requires j < |es|
    ensures AddEntries(m, es[..j + 1]) == AddTags(AddEntries(m, es[..j]), EntryTags(es[j]))
  {
    assert es[..j + 1][..j] == es[..j];
  }

  /** One more session, as one more step of the loop over the sessions. */
  lemma TallyOfStep(rs: seq<SessionRecord>, i: nat)
    requires i < |rs| && AllSized(rs[..i + 1])
    ensures AllSized(rs[..i]) && Sized(rs[i].moves)
    ensures TallyOf(rs[..i + 1]) == AddRecord(TallyOf(rs[..i]), rs[i])
    ensures MistakesOf(rs[..i + 1]) == AddEntries(MistakesOf(rs[..i]), MovesEntries(rs[i].moves))
  {
    assert rs[..i + 1][..i] == rs[..i];
    assert rs[..i + 1][i] == rs[i];
  }

  /** One more session, as one more step of the search for the first error. */
  lemma FirstFaultStep(rs: seq<SessionRecord>, i: nat)
    requires i < |rs|
    ensures FirstFault(rs[..i + 1]) == if FirstFault(rs[..i]).Some? then FirstFault(rs[..i]) else RecordFault(rs[i])
  {
    assert rs[..i + 1][..i] == rs[..i];
  }

  /** Once an error is found, the sessions after it do not change it. */
  lemma {:induction false} FaultPersists(rs: seq<SessionRecord>, k: nat)
    requires k <= |rs| && FirstFault(rs[..k]).Some?
    ensures FirstFault(rs) == FirstFault(rs[..k])
    decreases |rs| - k
  {
    if k == |rs| {
      assert rs[..k] == rs;
    } else {
      FirstFaultStep(rs, k);
      FaultPersists(rs, k + 1);
    }
  }

  /** The first session that raises decides the error of the whole batch. */
  lemma FaultAt(rs: seq<SessionRecord>, i: nat)
    requires i < |rs| && FirstFault(rs[..i]).None? && RecordFault(rs[i]).Some?
    ensures FirstFault(rs) == RecordFault(rs[i])
  {
    FirstFaultStep(rs, i);
    FaultPersists(rs, i + 1);
  }

  /** The loop over one move entry's `mistakes`: each tag adds one to its count. */
  method CountMistakes(commonMistakes: map<string, nat>, tags: seq<string>) returns (updated: map<string, nat>)
    ensures updated == AddTags(commonMistakes, tags)
  {
    updated := commonMistakes;
    var k := 0;
    while k < |tags|
      invariant 0 <= k <= |tags|
      invariant updated == AddTags(commonMistakes, tags[..k])
    {
      var mistake := tags[k];
      AddTagsStep(commonMistakes, tags, k);
      updated := updated[mistake := Get(updated, mistake) + 1];
      k := k + 1;
    }
    assert tags[..k] == tags;
  }

  /** The loop over one session's `moves`: dict entries add their tags, other values
      nothing, and a dict whose `mistakes` cannot be tallied raises (`None`). */
  method CountMoveMistakes(commonMistakes: map<string, nat>, movesArray: seq<MoveEntry>)
    returns (updated: Option<map<string, nat>>)
    ensures Readable(movesArray) ==> updated == Some(AddEntries(commonMistakes, movesArray))
    ensures !Readable(movesArray) ==> updated.None?
  {
    var counts := commonMistakes;
    var j := 0;
    while j < |movesArray|
      invariant 0 <= j <= |movesArray|
      invariant Readable(movesArray[..j])
      invariant counts == AddEntries(commonMistakes, movesArray[..j])
    {
      if movesArray[j].MalformedDictEntry? {
        return None;
      }
      AddEntriesStep(commonMistakes, movesArray, j);
      if movesArray[j].DictEntry? {
        counts := CountMistakes(counts, movesArray[j].mistakes);
      }
      assert forall n :: 0 <= n < j + 1 ==> movesArray[..j + 1][n] == movesArray[n];
      j := j + 1;
    }
    assert movesArray[..j] == movesArray;
    return Some(counts);
  }

  /** The counting part of one iteration over the sessions: status, wins, optimal wins,
      moves in wins, duration, and the length of the `moves` log. */
  method CountSession(analytics: Tally, game: SessionRecord) returns (updated: Tally)
    requires Sized(game.moves)
    ensures updated == AddRecord(analytics, game)
  {
    updated := analytics.(totalGames := analytics.totalGames + 1);
    if game.status == Some("completed") {
      updated := updated.(completedGames := updated.completedGames + 1);
      if game.win {
        var movesCount := if game.movesCount.Some? then game.movesCount.value else 0;
        updated := updated.(wins := updated.wins + 1, totalMovesInWins := updated.totalMovesInWins + movesCount);
        if movesCount == OptimalMoves {
          updated := updated.(optimalSolutions := updated.optimalSolutions + 1);
        }
      }
      if game.gameDuration.Some? && game.gameDuration.value != 0.0 {
        updated := updated.(totalDuration := updated.totalDuration + game.gameDuration.value);
      }
    } else {
      updated := updated.(activeGames := updated.activeGames + 1);
    }
    updated := updated.(totalMovesMade := updated.totalMovesMade + MovesLength(game.moves));
  }

  /** `analyze_gameplay`: `source` is the fetched sessions, or `None` when the fetch raised.
      The first session that raises aborts the whole pass; the counts already made are
      discarded with the rest. */
  method AnalyzeGameplay(source: Option<seq<SessionRecord>>) returns (result: Result<Analytics, AnalyticsError>)
    ensures source.None? ==> result == Failure(SourceUnavailable)
    ensures source.Some? && FirstFault(source.value).Some? ==> result == Failure(FirstFault(source.value).value)
    ensures source.Some? && FirstFault(source.value).None? ==>
              && AllSized(source.value)
              && result == Success(Summarize(TallyOf(source.value), MistakesOf(source.value)))
  {
    if source.None? {
      return Failure(SourceUnavailable);
    }
    var games := source.value;
    var analytics := EmptyTally;
    var commonMistakes: map<string, nat> := map[];
    var i := 0;
    while i < |games|
      invariant 0 <= i <= |games|
      invariant FirstFault(games[..i]).None?
      invariant analytics == TallyOf(games[..i])
      invariant commonMistakes == MistakesOf(games[..i])
    {
      var game := games[i];
      if game.moves.MovesUnsized? {
        FaultAt(games, i);
        return Failure(UnsizedMoves);
      }
      analytics := CountSession(analytics, game);
      var counted := CountMoveMistakes(commonMistakes, MovesEntries(game.moves));
      if counted.None? {
        FaultAt(games, i);
        return Failure(MalformedMistakes);
      }
      commonMistakes := counted.value;
      FirstFaultStep(games, i);
      TallyOfStep(games, i);
      i := i + 1;
    }
    assert games[..i] == games;
    var averageMoves, successRate, averageTime := 0.0, 0.0, 0.0;
    if analytics.completedGames > 0 {
      if analytics.wins > 0 {
        averageMoves := (analytics.totalMovesInWins as real) / (analytics.wins as real);
        successRate := ((analytics.wins as real) / (analytics.completedGames as real)) * 100.0;
      }
      averageTime := analytics.totalDuration / (analytics.completedGames as real);
    }
    return Success(Analytics(analytics.totalGames, analytics.activeGames, analytics.completedGames,
                             analytics.wins, averageMoves, analytics.optimalSolutions, commonMistakes,
                             successRate, averageTime, analytics.totalMovesMade));
  }

  /** The sessions of `rs` that satisfy `p`, counted by a separate reference. */
  function CountWhere(rs: seq<SessionRecord>, p: SessionRecord -> bool): nat
    decreases |rs|
  {
    if rs == [] then 0 else CountWhere(rs[..|rs| - 1], p) + (if p(rs[|rs| - 1]) then 1 else 0)
  }

  /** The sum of `len(moves)` over the sessions. */
  function MovesMade(rs: seq<SessionRecord>): nat
    requires AllSized(rs)
    decreases |rs|
  {
    if rs == [] then 0
    else
      assert AllSized(rs[..|rs| - 1]) by {
        assert forall i :: 0 <= i < |rs| - 1 ==> rs[..|rs| - 1][i] == rs[i];
      }
      MovesMade(rs[..|rs| - 1]) + MovesLength(rs[|rs| - 1].moves)
  }

  /** Every session is counted once, completed or active; wins are completed sessions
      with a truthy `win`, optimal solutions those wins with eleven moves; the moves made
      are summed over every session whatever its status. */
  lemma {:induction false} TallyCounts(rs: seq<SessionRecord>)
    requires AllSized(rs)
    ensures var t := TallyOf(rs);
            && t.totalGames == |rs|
            && t.completedGames + t.activeGames == t.totalGames
            && t.optimalSolutions <= t.wins <= t.completedGames
            && t.completedGames == CountWhere(rs, IsCompleted)
            && t.wins == CountWhere(rs, IsWon)
            && t.optimalSolutions == CountWhere(rs, IsOptimal)
            && t.totalMovesMade == MovesMade(rs)
    decreases |rs|
  {
    if rs != [] {
      var n := |rs| - 1;
      assert rs[..n + 1] == rs;
      TallyOfStep(rs, n);
      TallyCounts(rs[..n]);
    }
  }

  /** The tags of the dict entries of `es`, in order. */
  function EntriesTags(es: seq<MoveEntry>): seq<string>
    decreases |es|
  {
    if es == [] then [] else EntriesTags(es[..|es| - 1]) + EntryTags(es[|es| - 1])
  }

  /** The tags of every move of every session, in order. */
  function AllTags(rs: seq<SessionRecord>): seq<string>
    decreases |rs|
  {
    if rs == [] then [] else AllTags(rs[..|rs| - 1]) + EntriesTags(MovesEntries(rs[|rs| - 1].moves))
  }

  lemma {:induction false} AddTagsCounts(m: map<string, nat>, tags: seq<string>)
    ensures forall x :: Get(AddTags(m, tags), x) == Get(m, x) + multiset(tags)[x]
    ensures forall x :: x in AddTags(m, tags) <==> x in m || x in tags
    decreases |tags|
  {
    if tags != [] {
      var n := |tags| - 1;
      AddTagsCounts(m, tags[..n]);
      assert tags == tags[..n] + [tags[n]];
    }
  }

  lemma {:induction false} AddEntriesCounts(m: map<string, nat>, es: seq<MoveEntry>)
    ensures forall x :: Get(AddEntries(m, es), x) == Get(m, x) + multiset(EntriesTags(es))[x]
    ensures forall x :: x in AddEntries(m, es) <==> x in m || x in EntriesTags(es)
    decreases |es|
  {
    if es != [] {
      var n := |es| - 1;
      AddEntriesCounts(m, es[..n]);
      AddTagsCounts(AddEntries(m, es[..n]), EntryTags(es[n]));
    }
  }

  /** Each tag in a dict move entry adds exactly one to its count, other entries add
      nothing, and the map holds exactly the tags that occur. */
  lemma {:induction false} MistakeCounts(rs: seq<SessionRecord>)
    ensures forall x :: Get(MistakesOf(rs), x) == multiset(AllTags(rs))[x]
    ensures forall x :: x in MistakesOf(rs) <==> x in AllTags(rs)
    decreases |rs|
  {
    if rs != [] {
      var n := |rs| - 1;
      MistakeCounts(rs[..n]);
      AddEntriesCounts(MistakesOf(rs[..n]), MovesEntries(rs[n].moves));
    }
  }

  /** A rate that is 100 times `w` over `c`, with `w` at most `c`, is a percentage. */
  lemma PercentBound(rate: real, w: real, c: real)
    requires 0.0 < c && 0.0 <= w <= c && rate * c == 100.0 * w
    ensures 0.0 <= rate <= 100.0
  {
  }

  /** With no more wins than completed games, the success rate is a percentage. */
  lemma RateBounded(t: Tally, commonMistakes: map<string, nat>)
    requires t.wins <= t.completedGames
    ensures 0.0 <= Summarize(t, commonMistakes).successRate <= 100.0
  {
    var a := Summarize(t, commonMistakes);
    if t.completedGames > 0 && t.wins > 0 {
      PercentBound(a.successRate, t.wins as real, t.completedGames as real);
    }
  }

  /** The success rate is a percentage. */
  lemma SuccessRateBounded(rs: seq<SessionRecord>)
    requires AllSized(rs)
    ensures 0.0 <= Summarize(TallyOf(rs), MistakesOf(rs)).successRate <= 100.0
  {
    TallyCounts(rs);
    RateBounded(TallyOf(rs), MistakesOf(rs));
  }

  /** No sessions: every counter and average zero, no mistakes. */
  lemma EmptyInput()
    ensures Summarize(TallyOf([]), MistakesOf([])) == Analytics(0, 0, 0, 0, 0.0, 0, map[], 0.0, 0.0, 0)
  {
  }

  /** Three sessions: an optimal win, one in progress, and a loss without a `moves` log. */
  lemma ThreeSessions()
    ensures var rs := [
              SessionRecord(Some("completed"), true, Some(11), Some(120.0),
                            MovesList([DictEntry([]), DictEntry(["carnivores_outnumber_priests"]), NonDictEntry])),
              SessionRecord(Some("in_progress"), false, Some(3), None, MovesList([DictEntry(["carnivores_outnumber_priests"])])),
              SessionRecord(Some("completed"), false, Some(1), Some(30.0), MovesMissing)];
            AllSized(rs) &&
            Summarize(TallyOf(rs), MistakesOf(rs)) ==
              Analytics(3, 1, 2, 1, 11.0, 1, map["carnivores_outnumber_priests" := 2], 50.0, 75.0, 4)
  {
    var r1 := SessionRecord(Some("completed"), true, Some(11), Some(120.0),
                            MovesList([DictEntry([]), DictEntry(["carnivores_outnumber_priests"]), NonDictEntry]));
    var r2 := SessionRecord(Some("in_progress"), false, Some(3), None, MovesList([DictEntry(["carnivores_outnumber_priests"])]));
    var r3 := SessionRecord(Some("completed"), false, Some(1), Some(30.0), MovesMissing);
    var rs := [r1, r2, r3];
    assert rs[..2] == [r1, r2] && rs[..2][..1] == [r1] && [r1][..0] == [];
    var es := MovesEntries(r1.moves);
    assert es[..2] == [DictEntry([]), DictEntry(["carnivores_outnumber_priests"])] && es[..2][..1] == [DictEntry([])];
    assert ["carnivores_outnumber_priests"][..0] == [] && [DictEntry([])][..0] == [];
    assert AddTags(map[], ["carnivores_outnumber_priests"]) == map["carnivores_outnumber_priests" := 1];
    assert AddEntries(map[], [DictEntry([])]) == map[];
    assert AddEntries(map[], es[..2]) == map["carnivores_outnumber_priests" := 1];
    assert AddEntries(map[], es) == map["carnivores_outnumber_priests" := 1];
    assert MistakesOf([r1]) == map["carnivores_outnumber_priests" := 1];
    assert [DictEntry(["carnivores_outnumber_priests"])][..0] == [];
    assert AddTags(map["carnivores_outnumber_priests" := 1], ["carnivores_outnumber_priests"]) == map["carnivores_outnumber_priests" := 2];
    assert AddEntries(map["carnivores_outnumber_priests" := 1], MovesEntries(r2.moves)) == map["carnivores_outnumber_priests" := 2];
    assert MistakesOf([r1, r2]) == map["carnivores_outnumber_priests" := 2];
    assert TallyOf([r1]) == Tally(1, 0, 1, 1, 1, 11, 120.0, 3);
    assert TallyOf([r1, r2]) == Tally(2, 1, 1, 1, 1, 11, 120.0, 4);
    assert TallyOf(rs) == Tally(3, 1, 2, 1, 1, 11, 150.0, 4);
  }
}
