# Glicko-2 rating system: the record-keeping layer

This project models the record-keeping core of a C++ Glicko-2 rating system, and proves properties of the model.

- A `Player` holds a name, a rating, a rating deviation (RD), a volatility and a match history, which `Add_Match` appends to and `Set_Match_History` replaces. Each history entry pairs a copy of the opponent with a score.
- A `Glicko2` object is a registry of players keyed by name, plus the system constant tau. It updates one player (`Run(name)`) or all of them (`Run()`). An update reads the player's history into parallel arrays, computes three new numbers and writes back only the rating, the RD and the volatility.

Files:

- `players.dfy` (module `Players`) models Player.h and Player.cpp. A C++ `Player` is a value type, so the model has both:
  - the datatype `PlayerValue`, which is what a registry entry, a history entry or a getter result holds;
  - the class `Player`, one object whose setters change that value in place.

  `Player.Value()` relates the two.
- `glicko_math.dfy` (module `GlickoMath`) models the numeric side of `Single_Run`. That is the conversion between the rating scale and the internal Glicko-2 scale (factor 173.7178, centre 1500), plus the branch for a player with no matches. The rest of the numerics is a parameter, described under "Left out".
- `glicko2.dfy` (module `Glicko2System`) models Glicko2.h and Glicko2.cpp. It holds the registry class and its operations, the extraction loop of `Run(name)`, and the pure specifications that the update methods are proved against (`Updated`, `RunOne`, `RunAllSpec`).

Naming: Dafny has no overloading. So `Run()` is `RunAll`, `Add_Match(pair)` is `AddMatchEntry`, and the six-argument `Player` constructor is `WithMatches`.

Three behaviours of the registry, each as the code has it:

- `Add_Player` uses `std::map::insert`. So adding a name that is already present keeps the existing entry; it does not overwrite it.
- `Run(name)` and `Get_Player(name)` use `operator[]`. So an absent name is not an error. It inserts a default player, named "Player" rather than `name`, and that player is then updated.
- `Run()` visits keys in the map's order. The model picks keys in an arbitrary order and proves that the result is the same for every order.

## Model

| member | source | states |
|---|---|---|
| `Players.Player.constructor` | Player.cpp:5-10 | stores exactly the given name, rating, RD and volatility, with an empty history; the parameter defaults are those of Player.h:10 |
| `Players.NewDefaultPlayer` | Player.h:10 | a Player built with no arguments holds name "Player", rating 1500, RD 350, volatility 0.06 and no matches |
| `Players.Player.WithMatches` | Player.cpp:12-23 | needs at least as many scores as opponents; stores the given four fields and a history as long as opps, whose entry i is (opps[i], scores[i]) |
| `Players.Player.GetName` | Player.h:12-13 | returns exactly the stored name |
| `Players.Player.GetRating` | Player.h:15-16 | returns exactly the stored rating |
| `Players.Player.GetRd` | Player.h:18-19 | returns exactly the stored RD |
| `Players.Player.GetVol` | Player.h:21-22 | returns exactly the stored volatility |
| `Players.Player.GetMatchHistory` | Player.h:24-25 | returns the stored history as a value; nothing done to the result can reach the stored history |
| `Players.Player.SetName` | Player.h:27-28 | the new value is the old one with only the name replaced |
| `Players.Player.SetRating` | Player.h:30-31 | the new value is the old one with only the rating replaced |
| `Players.Player.SetRd` | Player.h:33-34 | the new value is the old one with only the RD replaced |
| `Players.Player.SetVol` | Player.h:36-37 | the new value is the old one with only the volatility replaced |
| `Players.Player.SetMatchHistory` | Player.h:39-40 | the history becomes exactly the given one; nothing else changes |
| `Players.Player.AddMatch` | Player.cpp:25-29 | appends (copy of the opponent as it was before the call, score) at the end; earlier entries and the four numeric and name fields are unchanged, also when the opponent is the player itself |
| `Players.Player.AddMatchEntry` | Player.cpp:31-34 | appends the given entry unchanged at the end; nothing else changes |
| `Players.RecordThenChangeOpponent` | Player.h:50 | after recording a match, changing the opponent object leaves the recorded entry equal to the opponent's earlier value |
| `GlickoMath.ToMu` | Glicko2.cpp:66 | the rating is 173.7178 times mu above 1500, as `mu = (rating-1500)/173.7178` defines; the same conversion is applied to every opponent at Glicko2.cpp:70-71 |
| `GlickoMath.ToPhi` | Glicko2.cpp:66 | the RD is 173.7178 times phi, as `phi = rd/173.7178` defines; the same conversion is applied to every opponent at Glicko2.cpp:72-73 |
| `GlickoMath.FromMu` | Glicko2.cpp:132 | converting a Glicko-scale mu back to a rating is undone by the conversion of Glicko2.cpp:66 |
| `GlickoMath.FromPhi` | Glicko2.cpp:133 | converting a Glicko-scale phi back to an RD is undone by the conversion of Glicko2.cpp:66 |
| `GlickoMath.ScaleRoundTrip` | Glicko2.cpp:66 | converting a rating or an RD to the Glicko scale and back gives exactly the input |
| `GlickoMath.NoMatchRd` | Glicko2.cpp:61-62 | on the Glicko scale the no-match RD is the square root of phi^2 + volatility^2, then scaled back by 173.7178 |
| `GlickoMath.SingleRunSpec` | Glicko2.cpp:52-137 | always three results; with no matches, rating and volatility are returned exactly and the RD is the no-match RD; otherwise the results are the opaque step's mu, phi and sigma taken back to the rating scale |
| `GlickoMath.NoMatchRdIdeal` | Glicko2.cpp:59-64 | with an ideal square root, the no-match RD is at least 0, and (RD'/173.7178)^2 = (RD/173.7178)^2 + volatility^2 |
| `GlickoMath.NoMatchRdGrows` | Glicko2.cpp:59-64 | with an ideal square root, the no-match RD is at least RD, and strictly greater when the volatility is not 0; a negative RD comes back non-negative |
| `Glicko2System.ExtractMatchData` | Glicko2.cpp:27-38 | yields opponent ratings, opponent RDs and scores, each as long as mh, with element j taken from match j |
| `Glicko2System.Updated` | Glicko2.cpp:21-45 | an update keeps the name and the match history; with no matches it also keeps rating and volatility, and the RD becomes the no-match RD |
| `Glicko2System.Lookup` | Glicko2.h:22-23 | what `operator[]` finds: the entry under a present name, the default player under an absent one |
| `Glicko2System.RunOne` | Glicko2.cpp:21-45 | the key set grows by exactly `name` (only if it was absent); that entry becomes the update of its old or default value; every other entry is unchanged |
| `Glicko2System.RunInOrder` | Glicko2.cpp:15-19 | `Run(name)` applied to each name of `order` in turn; the resulting names are exactly the old names plus those of `order` |
| `Glicko2System.RunInOrderAt` | Glicko2.cpp:15-19 | running present names, each once, in any order keeps the key set and updates exactly those entries, each from its own prior value |
| `Glicko2System.RunOrderIndependent` | Glicko2.cpp:15-19 | running every key once, in any order, gives the registry in which every entry is the update of its own prior value |
| `Glicko2System.RunRepeatedlyKeepsAllButRd` | Glicko2.cpp:59-64 | updating a player with no matches any number of times changes nothing but its RD |
| `Glicko2System.RunRepeatedlyWithoutMatches` | Glicko2.cpp:59-64 | with an ideal square root, after n updates without matches (RD/173.7178)^2 has grown by exactly n times volatility^2 |
| `Glicko2System.RunRepeatedlyNeverLowersRd` | Glicko2.cpp:59-64 | with an ideal square root, any number of updates without matches never lowers the RD |
| `Glicko2System.Glicko2.constructor` | Glicko2.cpp:6-8 | sets tau to the argument (default 0.6) and starts with an empty registry |
| `Glicko2System.Glicko2.WithPlayers` | Glicko2.cpp:10-13 | stores exactly the given registry and tau (default 0.6) |
| `Glicko2System.Glicko2.GetPlayers` | Glicko2.h:19-20 | returns the whole registry by value; reading it changes nothing |
| `Glicko2System.Glicko2.GetPlayer` | Glicko2.h:22-23 | a present name returns its player and leaves the registry unchanged; an absent name inserts the default player (named "Player") under that name and returns it |
| `Glicko2System.Glicko2.F` | Glicko2.h:29-30 | returns `compute` applied to `x` |
| `Glicko2System.Glicko2.AddPlayer` | Glicko2.cpp:47-50 | an absent name gains a copy of the player; a present name leaves the registry unchanged |
| `Glicko2System.Glicko2.SingleRun` | Glicko2.cpp:52-137 | its result equals `SingleRunSpec` of its inputs; the loops of Glicko2.cpp:70-73 convert every opponent to the Glicko scale in order |
| `Glicko2System.Glicko2.Run` | Glicko2.cpp:21-45 | the registry becomes `RunOne` of the old registry: only `name`'s rating, RD and volatility change, and an absent name is inserted first |
| `Glicko2System.Glicko2.RunAll` | Glicko2.cpp:15-19 | keeps the key set and sets every entry to the update of its own prior value, whatever order the keys are visited in |

## Left out

- Floating point: every number is a mathematical `real`. 173.7178, 1500, 0.06 and 0.6 are exact, and no rounding, infinity or NaN is modelled.
- The numerics of an update with at least one match (Glicko2.cpp:75-130) are the opaque `step` of the `Numerics` value given to the `Glicko2` constructor. That covers `g` and `E` (Glicko2.h:34-38), the sums `sum1`, `sum2` and `sum3`, `nu`, `delta`, the function `comp`, and the volatility root-finder with its bracket search (Glicko2.cpp:101-103) and its regula-falsi loop (Glicko2.cpp:108-119). Real numbers have no exp, log or sqrt here, and neither loop has a termination argument. Because `step` is a total function, the model assumes both loops terminate, and it does not model a division by a zero `sum1`.
- `std::sqrt` in the no-match branch (Glicko2.cpp:61) is the `sqrt` field of `Numerics`. Every claim about the no-match RD's size needs `IsSqrt`, the idealisation that this field is the exact non-negative square root.
- `Numerics` is an extra constructor argument of `Glicko2`. It stands for the math library the original links against.
- `Glicko2System.Glicko2.SingleRun`: `num_matches` is a `nat`. The original narrows `size_t` to `int` at Glicko2.cpp:28, which would wrap for histories of more than 2^31 - 1 matches.
- glicko2-client.cpp is not part of this model. It holds option parsing, interactive prompts, CSV reading and writing, console output and timestamped file names.
