/** The dice-game state machine: four named players, each holding a chip
    count, take turns; an even roll gains a chip, an odd roll loses one
    (never going below zero), and the first player to hold WINNING_SCORE
    chips wins. */
module Game {
  import opened Text

  /** Chips needed to win. */
  const WINNING_SCORE: int := 10

  /** The setup screen has exactly this many name inputs. */
  const PLAYER_COUNT: nat := 4

  datatype Player = Player(name: string, score: int)

  datatype Option<T> = None | Some(value: T)

  /** The values of the module-level variables `players` and
      `currentPlayerIndex`. */
  datatype GameState = GameState(players: seq<Player>, current: int)

  /** The branch of the scoring rule that a roll takes. */
  datatype Outcome = Gained | Lost | StayedAtZero

  /** What one roll does to the game: the new state, and the player handed
      to the win screen, if any. */
  datatype Transition = Transition(state: GameState, winner: Option<Player>)

  /** The turn index designates a player. */
  predicate InRange(s: GameState) {
    0 <= s.current < |s.players|
  }

  /** The game invariant: a valid turn index and no negative chip count. */
  predicate ValidState(s: GameState) {
    InRange(s) && forall j :: 0 <= j < |s.players| ==> s.players[j].score >= 0
  }

  predicate EndsWith(s: string, suffix: string) {
    |suffix| <= |s| && s[|s| - |suffix|..] == suffix
  }

  predicate StartsWith(s: string, prefix: string) {
    |prefix| <= |s| && s[..|prefix|] == prefix
  }

  // ---------------------------------------------------------------------
  // Roster setup
  // ---------------------------------------------------------------------

  /** The name used for a blank input at 1-based `position`. */
  function Placeholder(position: nat): string {
    "Player " + NatToString(position)
  }

  /** The placeholders of the four seats of the setup screen. */
  lemma PlaceholdersOfTheFourSeats()
    ensures Placeholder(1) == "Player 1" && Placeholder(2) == "Player 2"
    ensures Placeholder(3) == "Player 3" && Placeholder(4) == "Player 4"
  {
  }

  /** The roster of the four name inputs, seat by seat. */
  lemma FourSeatRoster(p1: string, p2: string, p3: string, p4: string)
    ensures Roster([p1, p2, p3, p4]) == [
      Player(if p1 != [] then p1 else "Player 1", 0), Player(if p2 != [] then p2 else "Player 2", 0),
      Player(if p3 != [] then p3 else "Player 3", 0), Player(if p4 != [] then p4 else "Player 4", 0)]
  {
    var roster := Roster([p1, p2, p3, p4]);
    assert |roster| == 4;
    PlaceholdersOfTheFourSeats();
    assert roster[0].name == (if p1 != [] then p1 else "Player 1");
    assert roster[1].name == (if p2 != [] then p2 else "Player 2");
    assert roster[2].name == (if p3 != [] then p3 else "Player 3");
    assert roster[3].name == (if p4 != [] then p4 else "Player 4");
  }

  /** The name of the player at 1-based `position`: a non-empty entry is
      kept exactly as typed (no trimming, so blanks-only entries survive);
      an empty one becomes "Player " followed by the numeral of its position. */
  function NameFor(entered: string, position: nat): (name: string)
    ensures name != []
    ensures entered != [] ==> name == entered
    ensures entered == [] ==> |name| > 7 && name[..7] == "Player "
                              && IsDigits(name[7..]) && DigitsValue(name[7..]) == position
                              && (name[7] == '0' ==> position == 0)
  {
    if entered != [] then entered
    else
      NatToStringRoundTrip(position);
      assert Placeholder(position)[7..] == NatToString(position);
      Placeholder(position)
  }

  /** The players built from the entered names, in input order, each with
      no chips. */
  function Roster(entries: seq<string>): (r: seq<Player>)
    ensures |r| == |entries|
    ensures forall k :: 0 <= k < |r| ==> r[k].score == 0 && r[k].name != []
    ensures forall k :: 0 <= k < |r| && entries[k] != [] ==> r[k].name == entries[k]
    ensures forall k :: 0 <= k < |r| && entries[k] == [] ==> r[k].name == Placeholder(k + 1)
  {
    seq(|entries|, k requires 0 <= k < |entries| => Player(NameFor(entries[k], k + 1), 0))
  }

  /** The state `startGame` sets up: the roster and the first player's turn. */
  function Start(p1: string, p2: string, p3: string, p4: string): (s: GameState)
    ensures ValidState(s) && s.current == 0 && |s.players| == PLAYER_COUNT
    ensures forall j :: 0 <= j < |s.players| ==> s.players[j].score == 0
    ensures TotalScore(s.players) == 0
  {
    var s := GameState(Roster([p1, p2, p3, p4]), 0);
    ZeroRosterTotal(s.players);
    s
  }

  // ---------------------------------------------------------------------
  // One roll
  // ---------------------------------------------------------------------

  /** The branch taken for a player holding `score` who rolls `roll`. */
  function OutcomeOf(score: int, roll: int): Outcome {
    if roll % 2 == 0 then Gained else if score > 0 then Lost else StayedAtZero
  }

  /** The chip count after the branch `o`. */
  function Rescore(score: int, o: Outcome): int {
    match o
    case Gained => score + 1
    case Lost => score - 1
    case StayedAtZero => score
  }

  /** The closing words of the log line for each branch. */
  function Report(o: Outcome): string {
    match o
    case Gained => "Gained 1 Chip!"
    case Lost => "Lost 1 Chip."
    case StayedAtZero => "Stayed at 0."
  }

  /** The part of the log line after the roll value: the parity of the roll
      and the report of the branch. */
  function Tail(o: Outcome): string {
    match o
    case Gained => " (EVEN) -> Gained 1 Chip!"
    case Lost => " (ODD) -> Lost 1 Chip."
    case StayedAtZero => " (ODD) -> Stayed at 0."
  }

  /** The parity tag written right after the roll value. */
  function ParityTag(even: bool): string {
    if even then " (EVEN) -> " else " (ODD) -> "
  }

  /** The tail of a branch opens with the tag of an even roll exactly when
      the branch is the gain, and with the tag of an odd roll otherwise. */
  lemma TailParity(o: Outcome, even: bool)
    ensures StartsWith(Tail(o), ParityTag(even)) <==> (o == Gained <==> even)
  {
    var tag := ParityTag(even);
    if o == Gained && !even {
      assert Tail(o)[6] != tag[6];
    } else if o != Gained && even {
      assert Tail(o)[5] != tag[5];
    }
  }

  /** The log line for `name` rolling `roll` with branch `o`. */
  function Message(name: string, roll: int, o: Outcome): string {
    name + " rolled " + IntToString(roll) + Tail(o)
  }

  /** The tail of each branch ends with that branch's report and with no
      other branch's. */
  lemma TailReports(o: Outcome, o': Outcome)
    ensures |Report(o')| <= |Tail(o)|
    ensures Tail(o)[|Tail(o)| - |Report(o')|..] == Report(o') <==> o' == o
  {
  }

  /** The last `k` elements of `a + b` are the last `k` elements of `b`. */
  lemma SuffixOfConcat(a: string, b: string, k: nat)
    requires k <= |b|
    ensures (a + b)[|a + b| - k..] == b[|b| - k..]
  {
  }

  /** A log line names the player first, then " rolled " and the roll value,
      then the tail of its branch; it ends with the report of its own branch
      and of no other, whatever the text of the roll value. */
  lemma LineReports(name: string, rolled: string, o: Outcome)
    ensures |name| <= |name + " rolled " + rolled + Tail(o)|
    ensures (name + " rolled " + rolled + Tail(o))[..|name|] == name
    ensures |name| + 8 + |rolled| <= |name + " rolled " + rolled + Tail(o)|
    ensures (name + " rolled " + rolled + Tail(o))[..|name| + 8 + |rolled|] == name + " rolled " + rolled
    ensures (name + " rolled " + rolled + Tail(o))[|name| + 8 + |rolled|..] == Tail(o)
    ensures forall o' :: EndsWith(name + " rolled " + rolled + Tail(o), Report(o')) <==> o' == o
  {
    var named := name + " rolled ";
    var head := named + rolled;
    PrefixOfConcat(head, Tail(o), |name|);
    PrefixOfConcat(named, rolled, |name|);
    PrefixOfConcat(name, " rolled ", |name|);
    PrefixOfConcat(head, Tail(o), |head|);
    SuffixOfConcat(head, Tail(o), |Tail(o)|);
    forall o'
      ensures EndsWith(head + Tail(o), Report(o')) <==> o' == o
    {
      TailReports(o, o');
      SuffixOfConcat(head, Tail(o), |Report(o')|);
    }
  }

  /** The first `k` elements of `a + b` are the first `k` elements of `a`. */
  lemma PrefixOfConcat(a: string, b: string, k: nat)
    requires k <= |a|
    ensures (a + b)[..k] == a[..k]
  {
  }

  /** The effect of one call of `submitRoll` on the state `s`.

      The acting player's chip count moves by the parity rule and nothing
      else in the roster changes; the win check uses the new count, and only
      when it fails does the turn pass to the next player, round-robin. */
  function Step(s: GameState, roll: int): (t: Transition)
    requires InRange(s)
    ensures |t.state.players| == |s.players| && InRange(t.state)
    ensures forall j :: 0 <= j < |s.players| && j != s.current ==> t.state.players[j] == s.players[j]
    ensures t.state.players[s.current].name == s.players[s.current].name
    // scoring
    ensures roll % 2 == 0 ==> t.state.players[s.current].score == s.players[s.current].score + 1
    ensures roll % 2 != 0 && s.players[s.current].score > 0
            ==> t.state.players[s.current].score == s.players[s.current].score - 1
    ensures roll % 2 != 0 && s.players[s.current].score <= 0
            ==> t.state.players[s.current].score == s.players[s.current].score
    ensures ValidState(s) ==> ValidState(t.state)
    // win check before turn advance
    ensures t.winner.Some? <==> t.state.players[s.current].score >= WINNING_SCORE
    ensures t.winner.Some? ==> t.winner.value == t.state.players[s.current] && t.state.current == s.current
    ensures t.winner.None? ==> t.state.current == (s.current + 1) % |s.players|
    // a win reached from below lands exactly on the threshold, on an even roll
    ensures t.winner.Some? && s.players[s.current].score < WINNING_SCORE
            ==> roll % 2 == 0 && t.winner.value.score == WINNING_SCORE
  {
    var i := s.current;
    var p := s.players[i];
    var acted := p.(score := Rescore(p.score, OutcomeOf(p.score, roll)));
    var players := s.players[i := acted];
    if acted.score >= WINNING_SCORE then
      Transition(GameState(players, i), Some(acted))
    else
      Transition(GameState(players, (i + 1) % |players|), None)
  }

  /** The line `submitRoll` writes to the log for a roll from state `s`: it
      names the acting player first, then " rolled " and the numeral of the
      roll, then the parity tag of the roll, and ends with the report of the
      branch the roll took, and of no other branch. */
  function StepMessage(s: GameState, roll: int): (m: string)
    requires InRange(s)
    ensures |s.players[s.current].name| <= |m|
            && m[..|s.players[s.current].name|] == s.players[s.current].name
    ensures var at := |s.players[s.current].name| + |" rolled "| + |IntToString(roll)|;
            at <= |m| && m[..at] == s.players[s.current].name + " rolled " + IntToString(roll)
            && (StartsWith(m[at..], " (EVEN) -> ") <==> roll % 2 == 0)
            && (StartsWith(m[at..], " (ODD) -> ") <==> roll % 2 != 0)
    ensures EndsWith(m, "Gained 1 Chip!") <==> roll % 2 == 0
    ensures EndsWith(m, "Lost 1 Chip.") <==> roll % 2 != 0 && s.players[s.current].score > 0
    ensures EndsWith(m, "Stayed at 0.") <==> roll % 2 != 0 && s.players[s.current].score <= 0
  {
    var p := s.players[s.current];
    var o := OutcomeOf(p.score, roll);
    LineReports(p.name, IntToString(roll), o);
    TailParity(o, true);
    TailParity(o, false);
    assert ParityTag(true) == " (EVEN) -> " && ParityTag(false) == " (ODD) -> ";
    assert Report(Gained) == "Gained 1 Chip!" && Report(Lost) == "Lost 1 Chip."
           && Report(StayedAtZero) == "Stayed at 0.";
    Message(p.name, roll, o)
  }

  // ---------------------------------------------------------------------
  // Sequences of rolls
  // ---------------------------------------------------------------------

  /** The state after the rolls `rolls` are submitted one after another.
      Nothing stops rolls after a win: the code has no such guard. The
      invariant holds throughout, and the roster keeps its size and names. */
  function Play(s: GameState, rolls: seq<int>): (r: GameState)
    requires ValidState(s)
    ensures ValidState(r)
    ensures |r.players| == |s.players|
    ensures forall j :: 0 <= j < |s.players| ==> r.players[j].name == s.players[j].name
    decreases |rolls|
  {
    if rolls == [] then s else Play(Step(s, rolls[0]).state, rolls[1..])
  }

  /** None of the rolls `rolls`, played from `s`, reports a winner. */
  predicate WinFree(s: GameState, rolls: seq<int>)
    requires ValidState(s)
    decreases |rolls|
  {
    rolls == [] || (Step(s, rolls[0]).winner.None? && WinFree(Step(s, rolls[0]).state, rolls[1..]))
  }

  /** The sum of all chip counts. */
  function TotalScore(players: seq<Player>): int
    decreases |players|
  {
    if players == [] then 0 else players[0].score + TotalScore(players[1..])
  }

  lemma {:induction false} ZeroRosterTotal(players: seq<Player>)
    requires forall j :: 0 <= j < |players| ==> players[j].score == 0
    ensures TotalScore(players) == 0
    decreases |players|
  {
    if players != [] {
      ZeroRosterTotal(players[1..]);
    }
  }

  /** Replacing one player changes the total by the change in that player's count. */
  lemma {:induction false} TotalScoreUpdate(players: seq<Player>, i: nat, p: Player)
    requires i < |players|
    ensures TotalScore(players[i := p]) == TotalScore(players) - players[i].score + p.score
    decreases |players|
  {
    if i > 0 {
      assert players[i := p][1..] == players[1..][i - 1 := p];
      TotalScoreUpdate(players[1..], i - 1, p);
    } else {
      assert players[i := p][1..] == players[1..];
    }
  }

  /** Each roll adds at most one chip to the table. */
  lemma {:induction false} PlayTotalBound(s: GameState, rolls: seq<int>)
    requires ValidState(s)
    ensures TotalScore(Play(s, rolls).players) <= TotalScore(s.players) + |rolls|
    decreases |rolls|
  {
    if rolls != [] {
      var i := s.current;
      var next := Step(s, rolls[0]).state;
      assert next.players == s.players[i := next.players[i]];
      TotalScoreUpdate(s.players, i, next.players[i]);
      PlayTotalBound(next, rolls[1..]);
    }
  }

  /** The number of the first `k` rolls of a fresh game that fall to `seat`:
      roll `t` (counting from 0) falls to seat `t % PLAYER_COUNT`. */
  function TurnsOf(k: nat, seat: nat): nat
    requires seat < PLAYER_COUNT
  {
    (k + PLAYER_COUNT - 1 - seat) / PLAYER_COUNT
  }

  /** After `k` win-free rolls of a fresh game it is seat `k % PLAYER_COUNT`'s
      turn, and no seat holds more chips than the turns it has had. */
  predicate ScoresWithinTurns(s: GameState, k: nat) {
    |s.players| == PLAYER_COUNT && s.current == k % PLAYER_COUNT
    && forall j :: 0 <= j < PLAYER_COUNT ==> s.players[j].score <= TurnsOf(k, j)
  }

  /** Roll `k` gives one more turn to seat `k % PLAYER_COUNT` and to no other. */
  lemma NextTurn(k: nat, seat: nat)
    requires seat < PLAYER_COUNT
    ensures TurnsOf(k + 1, seat) == TurnsOf(k, seat) + (if seat == k % PLAYER_COUNT then 1 else 0)
    ensures (k % PLAYER_COUNT + 1) % PLAYER_COUNT == (k + 1) % PLAYER_COUNT
  {
  }

  /** A roll numbered at most PLAYER_COUNT * (WINNING_SCORE - 1) reports no
      winner when every seat is within its turns, and keeps them within. */
  lemma StepWithinTurns(s: GameState, k: nat, roll: int)
    requires ValidState(s) && ScoresWithinTurns(s, k)
    requires k < PLAYER_COUNT * (WINNING_SCORE - 1)
    ensures Step(s, roll).winner.None?
    ensures ScoresWithinTurns(Step(s, roll).state, k + 1)
  {
    var t := Step(s, roll).state;
    var c := s.current;
    NextTurn(k, c);
    assert TurnsOf(k + 1, c) < WINNING_SCORE;
    forall j | 0 <= j < PLAYER_COUNT
      ensures t.players[j].score <= TurnsOf(k + 1, j)
    {
      NextTurn(k, j);
    }
  }

  /** Rolls that keep the roll count within PLAYER_COUNT * (WINNING_SCORE - 1)
      report no winner, and every seat stays within its turns. */
  lemma {:induction false} PlayWithinTurns(s: GameState, k: nat, rolls: seq<int>)
    requires ValidState(s) && ScoresWithinTurns(s, k)
    requires k + |rolls| <= PLAYER_COUNT * (WINNING_SCORE - 1)
    ensures WinFree(s, rolls)
    ensures ScoresWithinTurns(Play(s, rolls), k + |rolls|)
    decreases |rolls|
  {
    if rolls != [] {
      StepWithinTurns(s, k, rolls[0]);
      PlayWithinTurns(Step(s, rolls[0]).state, k + 1, rolls[1..]);
    }
  }

  /** From a fresh game, a seat gains at most one chip per turn of its own,
      so no roll reports a winner while every seat has had at most
      WINNING_SCORE - 1 turns: none of the first
      PLAYER_COUNT * (WINNING_SCORE - 1) = 36 rolls reports a winner,
      whatever the names and the rolled values. */
  lemma NoEarlyWin(p1: string, p2: string, p3: string, p4: string, rolls: seq<int>, roll: int)
    requires |rolls| < PLAYER_COUNT * (WINNING_SCORE - 1)
    ensures WinFree(Start(p1, p2, p3, p4), rolls)
    ensures Step(Play(Start(p1, p2, p3, p4), rolls), roll).winner.None?
  {
    var s := Start(p1, p2, p3, p4);
    PlayWithinTurns(s, 0, rolls);
    StepWithinTurns(Play(s, rolls), |rolls|, roll);
  }

  /** After `k` rolls of a fresh game, all even, it is seat
      `k % PLAYER_COUNT`'s turn and every seat holds one chip per turn it has had. */
  predicate ScoresAtTurns(s: GameState, k: nat) {
    |s.players| == PLAYER_COUNT && s.current == k % PLAYER_COUNT
    && forall j :: 0 <= j < PLAYER_COUNT ==> s.players[j].score == TurnsOf(k, j)
  }

  /** Even rolls numbered at most PLAYER_COUNT * (WINNING_SCORE - 1) give
      each seat exactly one chip per turn. */
  lemma {:induction false} PlayEvenRolls(s: GameState, k: nat, rolls: seq<int>)
    requires ValidState(s) && ScoresAtTurns(s, k)
    requires k + |rolls| <= PLAYER_COUNT * (WINNING_SCORE - 1)
    requires forall t :: 0 <= t < |rolls| ==> rolls[t] % 2 == 0
    ensures ScoresAtTurns(Play(s, rolls), k + |rolls|)
    decreases |rolls|
  {
    if rolls != [] {
      var t := Step(s, rolls[0]).state;
      StepWithinTurns(s, k, rolls[0]);
      forall j | 0 <= j < PLAYER_COUNT
        ensures t.players[j].score == TurnsOf(k + 1, j)
      {
        NextTurn(k, j);
      }
      PlayEvenRolls(t, k + 1, rolls[1..]);
    }
  }

  /** A fresh game is at turn 0 with every seat at its (zero) turns. */
  lemma FreshAtTurnZero(p1: string, p2: string, p3: string, p4: string)
    ensures ScoresAtTurns(Start(p1, p2, p3, p4), 0)
  {
    var s := Start(p1, p2, p3, p4);
    forall j | 0 <= j < PLAYER_COUNT
      ensures s.players[j].score == TurnsOf(0, j)
    {
    }
  }

  /** From a state where every seat holds one chip per turn after `k` even
      rolls, with `k` = PLAYER_COUNT * (WINNING_SCORE - 1), the first seat
      is to roll and holds WINNING_SCORE - 1 chips, so an even roll wins. */
  lemma {:induction false} EvenRollAfterFullRounds(s: GameState, roll: int)
    requires ValidState(s) && ScoresAtTurns(s, PLAYER_COUNT * (WINNING_SCORE - 1))
    requires roll % 2 == 0
    ensures Step(s, roll).winner == Some(Player(s.players[0].name, WINNING_SCORE))
  {
    assert s.current == 0;
    assert s.players[0].score == TurnsOf(PLAYER_COUNT * (WINNING_SCORE - 1), 0) == WINNING_SCORE - 1;
  }

  /** The bound of `NoEarlyWin` is exact: when every roll is even, the first
      player wins on roll PLAYER_COUNT * (WINNING_SCORE - 1) + 1 = 37, with
      exactly WINNING_SCORE chips. */
  lemma EvenRollsWinOnRoll37(p1: string, p2: string, p3: string, p4: string, rolls: seq<int>, roll: int)
    requires |rolls| == PLAYER_COUNT * (WINNING_SCORE - 1)
    requires forall t :: 0 <= t < |rolls| ==> rolls[t] % 2 == 0
    requires roll % 2 == 0
    ensures Step(Play(Start(p1, p2, p3, p4), rolls), roll).winner
            == Some(Player(Start(p1, p2, p3, p4).players[0].name, WINNING_SCORE))
  {
    var s := Start(p1, p2, p3, p4);
    FreshAtTurnZero(p1, p2, p3, p4);
    PlayEvenRolls(s, 0, rolls);
    EvenRollAfterFullRounds(Play(s, rolls), roll);
  }

  /** Over rolls that report no winner, the turn moves one seat per roll,
      wrapping around the table. */
  lemma {:induction false} RoundRobin(s: GameState, rolls: seq<int>)
    requires ValidState(s)
    requires WinFree(s, rolls)
    ensures Play(s, rolls).current == (s.current + |rolls|) % |s.players|
    decreases |rolls|
  {
    var c, n := s.current, |s.players|;
    if rolls != [] {
      var rest := rolls[1..];
      var next := Step(s, rolls[0]).state;
      assert Step(s, rolls[0]).winner.None?;
      assert Play(s, rolls) == Play(next, rest);
      RoundRobin(next, rest);
      AdvanceThenRotate(c, next.current, |rest|, n, c + |rolls|);
    } else {
      ModUnique(c, n, 0, c);
    }
  }

  /** Passing the turn once and then `k` more times is passing it `k + 1` times. */
  lemma AdvanceThenRotate(c: int, x: int, k: nat, n: int, m: int)
    requires 0 <= c < n
    requires x == (c + 1) % n && m == c + 1 + k
    ensures (x + k) % n == m % n
  {
    if c + 1 == n {
      ModUnique(c + 1, n, 1, 0);
      ModUnique(n + k, n, k / n + 1, k % n);
    } else {
      ModUnique(c + 1, n, 0, c + 1);
    }
  }

  /** Euclidean division leaves a unique remainder. */
  lemma ModUnique(x: int, n: int, q: int, r: int)
    requires 0 <= r < n && x == q * n + r
    ensures x % n == r
  {
    var q', r' := x / n, x % n;
    assert x == q' * n + r';
    if q' > q {
      assert (q' - q) * n == r - r';
      MulAtLeast(q' - q, n);
    } else if q' < q {
      assert (q - q') * n == r' - r;
      MulAtLeast(q - q', n);
    }
  }

  lemma MulAtLeast(d: nat, n: nat)
    requires d >= 1
    ensures d * n >= n
  {
  }

  // ---------------------------------------------------------------------
  // The game object: the script's module-level state
  // ---------------------------------------------------------------------

  class Game {
    var players: seq<Player>
    var currentPlayerIndex: int

    function State(): GameState
      reads this
    {
      GameState(players, currentPlayerIndex)
    }

    /** The state when the script loads: no players, turn index 0. */
    constructor ()
      ensures players == [] && currentPlayerIndex == 0
    {
      players := [];
      currentPlayerIndex := 0;
    }

    /** `startGame`: builds the four players from the name inputs and gives
        the first turn to the first of them. */
    method StartGame(p1: string, p2: string, p3: string, p4: string)
      modifies this
      ensures State() == Start(p1, p2, p3, p4)
      ensures ValidState(State()) && |players| == PLAYER_COUNT && currentPlayerIndex == 0
    {
      var n1 := if p1 != [] then p1 else "Player 1";
      var n2 := if p2 != [] then p2 else "Player 2";
      var n3 := if p3 != [] then p3 else "Player 3";
      var n4 := if p4 != [] then p4 else "Player 4";
      players := [Player(n1, 0), Player(n2, 0), Player(n3, 0), Player(n4, 0)];
      currentPlayerIndex := 0;

      FourSeatRoster(p1, p2, p3, p4);
    }

    /** `submitRoll`: scores the roll for the player whose turn it is,
        returns the log line, and either reports that player as the winner
        or passes the turn on. */
    method SubmitRoll(rollValue: int) returns (msg: string, winner: Option<Player>)
      requires 0 <= currentPlayerIndex < |players|
      modifies this
      ensures State() == Step(old(State()), rollValue).state
      ensures winner == Step(old(State()), rollValue).winner
      ensures msg == StepMessage(old(State()), rollValue)
      ensures old(ValidState(State())) ==> ValidState(State())
    {
      var player := players[currentPlayerIndex];
      var isEven := rollValue % 2 == 0;
      var rolled := player.name + " rolled " + IntToString(rollValue);
      if isEven {
        player := player.(score := player.score + 1);
        msg := rolled + " (EVEN) -> Gained 1 Chip!";
      } else {
        if player.score > 0 {
          player := player.(score := player.score - 1);
          msg := rolled + " (ODD) -> Lost 1 Chip.";
        } else {
          msg := rolled + " (ODD) -> Stayed at 0.";
        }
      }
      players := players[currentPlayerIndex := player];

      if player.score >= WINNING_SCORE {
        winner := Some(player);
      } else {
        winner := None;
        currentPlayerIndex := (currentPlayerIndex + 1) % |players|;
      }
    }
  }
}
