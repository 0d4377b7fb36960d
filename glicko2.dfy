/** Glicko2System: the registry of players keyed by name and the update
    entry points that write new ratings back into it (Glicko2.h,
    Glicko2.cpp). */
module Glicko2System {
  import opened Players
  import opened GlickoMath

  /** The default system constant tau, which bounds how fast volatility may change. */
  const DefaultTau: real := 0.6

  /** The opponents' ratings, in match order. */
  function OppRatings(mh: seq<Match>): seq<real>
  {
    seq(|mh|, j requires 0 <= j < |mh| => mh[j].opponent.rating)
  }

  /** The opponents' deviations, in match order. */
  function OppRds(mh: seq<Match>): seq<real>
  {
    seq(|mh|, j requires 0 <= j < |mh| => mh[j].opponent.rd)
  }

  /** The scores, in match order. */
  function MatchScores(mh: seq<Match>): seq<int>
  {
    seq(|mh|, j requires 0 <= j < |mh| => mh[j].score)
  }

  /** Splits a match history into three parallel sequences, element j of
      each taken from match j. */
  method ExtractMatchData(mh: seq<Match>) returns (oppRating: seq<real>, oppRd: seq<real>, scores: seq<int>)
    ensures |oppRating| == |mh| && |oppRd| == |mh| && |scores| == |mh|
    ensures forall j :: 0 <= j < |mh| ==>
      oppRating[j] == mh[j].opponent.rating && oppRd[j] == mh[j].opponent.rd && scores[j] == mh[j].score
  {
    oppRating, oppRd, scores := [], [], [];
    for j := 0 to |mh|
      invariant |oppRating| == j && |oppRd| == j && |scores| == j
      invariant forall i :: 0 <= i < j ==>
        oppRating[i] == mh[i].opponent.rating && oppRd[i] == mh[i].opponent.rd && scores[i] == mh[i].score
    {
      var m := mh[j];
      oppRating := oppRating + [m.opponent.rating];
      oppRd := oppRd + [m.opponent.rd];
      scores := scores + [m.score];
    }
  }

  /** One player after an update: only rating, deviation and volatility
      change; with no matches the rating and volatility stay as they were. */
  function Updated(math: Numerics, tau: real, p: PlayerValue): (q: PlayerValue)
    ensures q.name == p.name && q.matchHistory == p.matchHistory
    ensures p.matchHistory == [] ==>
      q.rating == p.rating && q.volatility == p.volatility
      && q.rd == NoMatchRd(math.sqrt, p.rd, p.volatility)
  {
    var mh := p.matchHistory;
    var primes := SingleRunSpec(math, tau, p.rating, p.rd, p.volatility, |mh|,
                                OppRatings(mh), OppRds(mh), MatchScores(mh));
    p.(rating := primes[0], rd := primes[1], volatility := primes[2])
  }

  /** What a default-inserting lookup finds under `name`. */
  function Lookup(m: map<string, PlayerValue>, name: string): (p: PlayerValue)
    ensures name in m ==> p == m[name]
    ensures name !in m ==> p == DefaultPlayer
  {
    if name in m then m[name] else DefaultPlayer
  }

  /** The registry after updating the one player under `name`; an absent name
      is first given a default player. */
  function RunOne(math: Numerics, tau: real, m: map<string, PlayerValue>, name: string): (m': map<string, PlayerValue>)
    ensures m'.Keys == m.Keys + {name}
    ensures m'[name] == Updated(math, tau, Lookup(m, name))
    ensures forall k :: k in m && k != name ==> m'[k] == m[k]
  {
    m[name := Updated(math, tau, Lookup(m, name))]
  }

  /** The registry with every player updated from its own prior value. */
  function RunAllSpec(math: Numerics, tau: real, m: map<string, PlayerValue>): map<string, PlayerValue>
  {
    map k | k in m :: Updated(math, tau, m[k])
  }

  /** Single-player updates applied one after another, in the given order. */
  function RunInOrder(math: Numerics, tau: real, m: map<string, PlayerValue>, order: seq<string>): (m': map<string, PlayerValue>)
    ensures forall k :: k in m' <==> k in m || k in order
    decreases |order|
  {
    if order == [] then m else RunInOrder(math, tau, RunOne(math, tau, m, order[0]), order[1..])
  }

  ghost predicate Distinct(order: seq<string>)
  {
    forall i, j :: 0 <= i < j < |order| ==> order[i] != order[j]
  }

  /** Running names that are already present, each once, updates exactly
      those entries from their own prior values. */
  lemma {:induction false} RunInOrderAt(math: Numerics, tau: real, m: map<string, PlayerValue>, order: seq<string>)
    requires Distinct(order)
    requires forall i :: 0 <= i < |order| ==> order[i] in m
    ensures RunInOrder(math, tau, m, order).Keys == m.Keys
    ensures forall k :: k in m ==>
      RunInOrder(math, tau, m, order)[k] == if k in order then Updated(math, tau, m[k]) else m[k]
    decreases |order|
  {
    if order != [] {
      var m' := RunOne(math, tau, m, order[0]);
      var rest := order[1..];
      assert Distinct(rest) by {
        forall i, j | 0 <= i < j < |rest| ensures rest[i] != rest[j] {
          assert rest[i] == order[i + 1] && rest[j] == order[j + 1];
        }
      }
      forall i | 0 <= i < |rest| ensures rest[i] in m' {
        assert rest[i] == order[i + 1];
      }
      RunInOrderAt(math, tau, m', rest);
      assert order[0] !in rest by {
        forall i | 0 <= i < |rest| ensures rest[i] != order[0] {
          assert rest[i] == order[i + 1];
        }
      }
      forall k | k in m
        ensures RunInOrder(math, tau, m, order)[k] == if k in order then Updated(math, tau, m[k]) else m[k]
      {
        assert k in order <==> k == order[0] || k in rest;
      }
    }
  }

  /** The update of the whole registry does not depend on the order in which
      the players are visited. */
  lemma {:induction false} RunOrderIndependent(math: Numerics, tau: real, m: map<string, PlayerValue>, order: seq<string>)
    requires Distinct(order)
    requires forall k :: k in order <==> k in m
    ensures RunInOrder(math, tau, m, order) == RunAllSpec(math, tau, m)
  {
    forall i | 0 <= i < |order| ensures order[i] in m {
      assert order[i] in order;
    }
    RunInOrderAt(math, tau, m, order);
    var done, spec := RunInOrder(math, tau, m, order), RunAllSpec(math, tau, m);
    forall k | k in m ensures done[k] == spec[k] {
      assert k in order;
    }
    SameEntries(done, spec, m.Keys);
  }

  /** Two registries with the same names and the same entry under each name are equal. */
  lemma SameEntries(a: map<string, PlayerValue>, b: map<string, PlayerValue>, names: set<string>)
    requires a.Keys == names && b.Keys == names
    requires forall k :: k in names ==> a[k] == b[k]
    ensures a == b
  {
  }

  /** A player updated `n` times in a row. */
  function RunRepeatedly(math: Numerics, tau: real, p: PlayerValue, n: nat): PlayerValue
  {
    if n == 0 then p else Updated(math, tau, RunRepeatedly(math, tau, p, n - 1))
  }

  /** Updating a player without matches any number of times changes
      nothing but its deviation. */
  lemma {:induction false} RunRepeatedlyKeepsAllButRd(math: Numerics, tau: real, p: PlayerValue, n: nat)
    requires p.matchHistory == []
    ensures RunRepeatedly(math, tau, p, n) == p.(rd := RunRepeatedly(math, tau, p, n).rd)
  {
    if n > 0 {
      RunRepeatedlyKeepsAllButRd(math, tau, p, n - 1);
    }
  }

  /** One more period without matches, as far as the deviation is concerned. */
  lemma RunRepeatedlyStep(math: Numerics, tau: real, p: PlayerValue, n: nat)
    requires p.matchHistory == []
    requires 0 < n
    ensures RunRepeatedly(math, tau, p, n).rd
         == NoMatchRd(math.sqrt, RunRepeatedly(math, tau, p, n - 1).rd, p.volatility)
  {
    RunRepeatedlyKeepsAllButRd(math, tau, p, n - 1);
  }

  /** Under an ideal square root, n updates of a player without matches grow
      its squared deviation on the internal scale by exactly n times the
      squared volatility. */
  lemma {:induction false} RunRepeatedlyWithoutMatches(math: Numerics, tau: real, p: PlayerValue, n: nat)
    requires IsSqrt(math.sqrt)
    requires p.matchHistory == []
    ensures Square(ToPhi(RunRepeatedly(math, tau, p, n).rd))
         == Square(ToPhi(p.rd)) + (n as real) * Square(p.volatility)
  {
    if n > 0 {
      RunRepeatedlyWithoutMatches(math, tau, p, n - 1);
      var rd := RunRepeatedly(math, tau, p, n - 1).rd;
      RunRepeatedlyStep(math, tau, p, n);
      NoMatchRdIdeal(math.sqrt, rd, p.volatility);
      OneMorePeriod(Square(ToPhi(RunRepeatedly(math, tau, p, n).rd)), Square(ToPhi(rd)),
                    Square(ToPhi(p.rd)), Square(p.volatility), n);
    }
  }

  /** Under an ideal square root, no number of updates without matches lowers
      the deviation. */
  lemma {:induction false} RunRepeatedlyNeverLowersRd(math: Numerics, tau: real, p: PlayerValue, n: nat)
    requires IsSqrt(math.sqrt)
    requires p.matchHistory == []
    ensures p.rd <= RunRepeatedly(math, tau, p, n).rd
  {
    if n > 0 {
      RunRepeatedlyNeverLowersRd(math, tau, p, n - 1);
      RunRepeatedlyStep(math, tau, p, n);
      NoMatchRdGrows(math.sqrt, RunRepeatedly(math, tau, p, n - 1).rd, p.volatility);
    }
  }

  /** The arithmetic of adding one more period's squared volatility. */
  lemma OneMorePeriod(now: real, before: real, start: real, step: real, n: nat)
    requires 0 < n
    requires now == before + step
    requires before == start + ((n - 1) as real) * step
    ensures now == start + (n as real) * step
  {
  }

  class Glicko2 {
    /** The floating-point library the numeric part of an update uses. */
    const math: Numerics
    /** tau, the system constant. */
    const sysConst: real
    var players: map<string, PlayerValue>

    constructor (math: Numerics, tau: real := DefaultTau)
      ensures this.math == math && sysConst == tau && players == map[]
    {
      this.math := math;
      sysConst := tau;
      players := map[];
    }

    constructor WithPlayers(math: Numerics, players: map<string, PlayerValue>, tau: real := DefaultTau)
      ensures this.math == math && sysConst == tau && this.players == players
    {
      this.math := math;
      sysConst := tau;
      this.players := players;
    }

    /** A copy of the whole registry. */
    function GetPlayers(): (m: map<string, PlayerValue>)
      reads this
      ensures m == players
    {
      players
    }

    /** The player under `name`; an absent name is first given a default
        player, whose own name is the default name, not `name`. */
    method GetPlayer(name: string) returns (p: PlayerValue)
      modifies this
      ensures name in old(players) ==> p == old(players)[name] && players == old(players)
      ensures name !in old(players) ==> p == DefaultPlayer && players == old(players)[name := DefaultPlayer]
    {
      if name !in players {
        players := players[name := DefaultPlayer];
      }
      p := players[name];
    }

    /** Plain application of `compute` to `x`. */
    function F(x: real, compute: real -> real): (y: real)
      ensures y == compute(x)
    {
      compute(x)
    }

    /** Adds a copy of `player` under its name, unless that name is already
        taken, in which case the registry keeps its entry. */
    method AddPlayer(player: Player)
      modifies this
      ensures player.name in old(players) ==> players == old(players)
      ensures player.name !in old(players) ==> players == old(players)[player.name := player.Value()]
    {
      if player.GetName() !in players {
        players := players[player.GetName() := player.Value()];
      }
    }

    /** The new rating, deviation and volatility of one player. */
    method SingleRun(rating: real, rd: real, volatility: real, numMatches: nat,
                     oppRating: seq<real>, oppRd: seq<real>, scores: seq<int>) returns (primes: seq<real>)
      requires numMatches <= |oppRating| && numMatches <= |oppRd| && numMatches <= |scores|
      ensures primes == SingleRunSpec(math, sysConst, rating, rd, volatility, numMatches, oppRating, oppRd, scores)
    {
      if numMatches == 0 {
        var phiP := math.sqrt(Square(ToPhi(rd)) + Square(volatility));
        primes := [rating, FromPhi(phiP), volatility];
        return;
      }
      var mu, phi := ToMu(rating), ToPhi(rd);
      var muOpp: seq<real> := [];
      for j := 0 to |oppRating|
        invariant |muOpp| == j
        invariant forall i :: 0 <= i < j ==> muOpp[i] == ToMu(oppRating[i])
      {
        muOpp := muOpp + [ToMu(oppRating[j])];
      }
      var phiOpp: seq<real> := [];
      for j := 0 to |oppRd|
        invariant |phiOpp| == j
        invariant forall i :: 0 <= i < j ==> phiOpp[i] == ToPhi(oppRd[i])
      {
        phiOpp := phiOpp + [ToPhi(oppRd[j])];
      }
      assert muOpp == Mus(oppRating);
      assert phiOpp == Phis(oppRd);
      var e := math.step(mu, phi, volatility, muOpp, phiOpp, scores, numMatches, sysConst);
      primes := [FromMu(e.mu), FromPhi(e.phi), e.sigma];
    }

    /** Updates the player under `name` and writes back only its rating,
        deviation and volatility; an absent name is first given a default player. */
    method Run(name: string)
      modifies this
      ensures players == RunOne(math, sysConst, old(players), name)
    {
      var current := GetPlayer(name);
      var mh := current.matchHistory;
      var oppRating, oppRd, scores := ExtractMatchData(mh);
      assert oppRating == OppRatings(mh) && oppRd == OppRds(mh) && scores == MatchScores(mh);
      var primes := SingleRun(current.rating, current.rd, current.volatility, |mh|, oppRating, oppRd, scores);
      players := players[name := players[name].(rating := primes[0], rd := primes[1], volatility := primes[2])];
    }

    /** Updates every registered player, each from its own prior value; the
        players are visited in an arbitrary order. */
    method RunAll()
      modifies this
      ensures players == RunAllSpec(math, sysConst, old(players))
    {
      var pending := players.Keys;
      while pending != {}
        invariant pending <= old(players).Keys
        invariant players.Keys == old(players).Keys
        invariant forall k :: k in pending ==> players[k] == old(players)[k]
        invariant forall k :: k in old(players) && k !in pending ==>
          players[k] == Updated(math, sysConst, old(players)[k])
        decreases pending
      {
        var name :| name in pending;
        Run(name);
        pending := pending - {name};
      }
      ghost var spec := RunAllSpec(math, sysConst, old(players));
      assert players.Keys == spec.Keys;
      forall k | k in players ensures players[k] == spec[k] {
        assert k !in pending;
      }
    }
  }
}
