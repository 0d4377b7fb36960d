/** Players: the record kept for one competitor, its rating triple and its
    match history, which Add_Match appends to and Set_Match_History replaces
    (Player.h, Player.cpp).

    A Player is a value type in the original: storing it in a registry, in a
    match entry or returning it from a getter copies it. PlayerValue is that
    value; the class Player is one object holding it, whose setters change it
    in place. */
module Players {

  const DefaultName: string := "Player"
  const DefaultRating: real := 1500.0
  const DefaultRd: real := 350.0
  const DefaultVolatility: real := 0.06

  /** One recorded match: a copy of the opponent as it stood when the match
      was added, and the score (1 for a win, 0 for a loss). */
  datatype Match = Match(opponent: PlayerValue, score: int)

  /** The value of a Player: name, rating, rating deviation, volatility and
      the matches recorded so far, oldest first. */
  datatype PlayerValue = PlayerValue(
    name: string,
    rating: real,
    rd: real,
    volatility: real,
    matchHistory: seq<Match>)

  /** What a default-constructed Player holds. */
  const DefaultPlayer: PlayerValue :=
    PlayerValue(DefaultName, DefaultRating, DefaultRd, DefaultVolatility, [])

  class Player {
    var name: string
    var rating: real
    var rd: real
    var volatility: real
    var matchHistory: seq<Match>

    /** The value this object currently holds; copying a Player copies this. */
    function Value(): PlayerValue
      reads this
    {
      PlayerValue(name, rating, rd, volatility, matchHistory)
    }

    /** Every argument has the default of a brand-new competitor. */
    constructor (name: string := DefaultName, rating: real := DefaultRating,
                 rd: real := DefaultRd, volatility: real := DefaultVolatility)
      ensures Value() == PlayerValue(name, rating, rd, volatility, [])
    {
      this.name := name;
      this.rating := rating;
      this.rd := rd;
      this.volatility := volatility;
      matchHistory := [];
    }

    /** Pairs the i-th opponent with the i-th score; scores beyond the
        opponents are ignored. */
    constructor WithMatches(name: string, rating: real, rd: real, volatility: real,
                            opps: seq<PlayerValue>, scores: seq<int>)
      requires |opps| <= |scores|
      ensures this.name == name && this.rating == rating
      ensures this.rd == rd && this.volatility == volatility
      ensures |matchHistory| == |opps|
      ensures forall i :: 0 <= i < |opps| ==> matchHistory[i] == Match(opps[i], scores[i])
    {
      this.name := name;
      this.rating := rating;
      this.rd := rd;
      this.volatility := volatility;
      matchHistory := [];
      new;
      var i := 0;
      while i < |opps|
        invariant 0 <= i <= |opps|
        invariant this.name == name && this.rating == rating
        invariant this.rd == rd && this.volatility == volatility
        invariant |matchHistory| == i
        invariant forall k :: 0 <= k < i ==> matchHistory[k] == Match(opps[k], scores[k])
      {
        matchHistory := matchHistory + [Match(opps[i], scores[i])];
        i := i + 1;
      }
    }

    function GetName(): (n: string)
      reads this
      ensures n == name
    {
      name
    }

    function GetRating(): (r: real)
      reads this
      ensures r == rating
    {
      rating
    }

    function GetRd(): (r: real)
      reads this
      ensures r == rd
    {
      rd
    }

    function GetVol(): (v: real)
      reads this
      ensures v == volatility
    {
      volatility
    }

    /** A copy of the history: a sequence is a value, so nothing done to the
        result can reach the stored history. */
    function GetMatchHistory(): (mh: seq<Match>)
      reads this
      ensures mh == matchHistory
    {
      matchHistory
    }

    method SetName(name: string)
      modifies this
      ensures Value() == old(Value()).(name := name)
    {
      this.name := name;
    }

    method SetRating(rating: real)
      modifies this
      ensures Value() == old(Value()).(rating := rating)
    {
      this.rating := rating;
    }

    method SetRd(rd: real)
      modifies this
      ensures Value() == old(Value()).(rd := rd)
    {
      this.rd := rd;
    }

    method SetVol(volatility: real)
      modifies this
      ensures Value() == old(Value()).(volatility := volatility)
    {
      this.volatility := volatility;
    }

    method SetMatchHistory(mh: seq<Match>)
      modifies this
      ensures Value() == old(Value()).(matchHistory := mh)
    {
      matchHistory := mh;
    }

    /** Records a match against a copy of `opponent` taken before the append,
        so a player may record a match against itself. */
    method AddMatch(opponent: Player, score: int)
      modifies this
      ensures Value() == old(Value()).(matchHistory := old(matchHistory) + [Match(old(opponent.Value()), score)])
    {
      var entry := Match(opponent.Value(), score);
      matchHistory := matchHistory + [entry];
    }

    /** Records a ready-made match entry as it is. */
    method AddMatchEntry(entry: Match)
      modifies this
      ensures Value() == old(Value()).(matchHistory := old(matchHistory) + [entry])
    {
      matchHistory := matchHistory + [entry];
    }
  }

  /** A Player built with no arguments holds the defaults. */
  method NewDefaultPlayer() returns (p: Player)
    ensures fresh(p) && p.Value() == DefaultPlayer
  {
    p := new Player();
  }

  /** An opponent is recorded by value: changing the opponent object after the
      match was added leaves the recorded entry as it was, even when the
      opponent is the recording player itself. */
  method RecordThenChangeOpponent(me: Player, opponent: Player, score: int, newRating: real)
    modifies me, opponent
    ensures me.matchHistory == old(me.matchHistory) + [Match(old(opponent.Value()), score)]
    ensures opponent.rating == newRating
  {
    me.AddMatch(opponent, score);
    opponent.SetRating(newRating);
  }
}
