/** The round state machine of the game server's `/start` and `/continue`
    routes. The server keeps one module-level settings object; `/start`
    replaces it and `/continue` advances it. The completion and image calls
    that a continuing turn goes on to make are outside this model: the reply
    `Proceed` marks the point where the handler makes them. */
module GameServer {

  /** `+gameSettings.turns`: the requested number of turns as a number. A
      missing value, or a string that is neither blank nor a number,
      converts to NaN; an empty or blank string converts to 0. The caller
      supplies the conversion. */
  datatype TurnLimit = Turns(n: int) | NaN

  /** `round > +turns`; every comparison with NaN is false. */
  predicate Exceeds(round: int, limit: TurnLimit)
  {
    limit.Turns? && round > limit.n
  }

  /** What a `/continue` call answers: the two fixed messages, or going on
      to the completion and image calls. */
  datatype Reply = NoActiveGame | GameFinished | Proceed

  const NoSessionMessage := "No active game session. Start a new game!"
  const FinishedMessage := "Game finished. Start a new game?"

  /** The text of the fixed replies. */
  function ReplyMessage(r: Reply): string
    requires !r.Proceed?
  {
    if r.NoActiveGame? then NoSessionMessage else FinishedMessage
  }

  /** The part of the settings the routes read and write. */
  datatype Progress = Progress(turns: TurnLimit, round: int, started: bool)

  /** One `/continue` call: its reply and the progress afterwards. */
  datatype Step = Step(reply: Reply, next: Progress)

  function ContinueStep(p: Progress): Step
  {
    if !p.started then Step(NoActiveGame, p)
    else if Exceeds(p.round + 1, p.turns) then Step(GameFinished, p.(round := p.round + 1, started := false))
    else Step(Proceed, p.(round := p.round + 1))
  }

  /** The progress `/start` leaves behind. */
  function AfterStart(turns: TurnLimit): Progress
  {
    Progress(turns, 1, true)
  }

  /** A call on a game that is not started answers the no-session message
      and changes nothing. */
  lemma ContinueIdle(p: Progress)
    requires !p.started
    ensures ContinueStep(p) == Step(NoActiveGame, p)
    ensures ReplyMessage(ContinueStep(p).reply) == NoSessionMessage
  {
  }

  /** A call on a started game moves the round on by exactly one; it ends the
      game exactly when the new round exceeds the turn limit, and only a call
      that does not end it goes on to the completion and image calls. */
  lemma ContinueActive(p: Progress)
    requires p.started
    ensures var s := ContinueStep(p);
            && s.next.round == p.round + 1
            && s.next.turns == p.turns
            && (s.reply == GameFinished <==> Exceeds(p.round + 1, p.turns))
            && (s.reply == Proceed <==> !Exceeds(p.round + 1, p.turns))
            && s.next.started == (s.reply == Proceed)
  {
  }

  /** A started game is at round 1 or within its turn limit. A start gives
      such a state, every continue leaves one, whatever state it began in,
      and no call moves the round backwards. */
  ghost predicate Playable(p: Progress)
  {
    p.started ==> p.round == 1 || !Exceeds(p.round, p.turns)
  }

  lemma ContinueKeepsPlayable(p: Progress)
    ensures Playable(ContinueStep(p).next)
    ensures ContinueStep(p).next.round >= p.round
    ensures Playable(AfterStart(p.turns))
  {
  }

  /** The replies to `k` successive calls, and the progress after them. */
  datatype Run = Run(replies: seq<Reply>, final: Progress)

  function Continues(p: Progress, k: nat): Run
    decreases k
  {
    if k == 0 then Run([], p)
    else
      var s := ContinueStep(p);
      var rest := Continues(s.next, k - 1);
      Run([s.reply] + rest.replies, rest.final)
  }

  /** The reply to the `j`-th call (from 0) on a game that has reached round
      `r` of `t` turns. */
  function Expected(t: int, r: int, j: nat): Reply
  {
    if r + j + 1 <= t then Proceed
    else if r + j + 1 == t + 1 then GameFinished
    else NoActiveGame
  }

  /** From a started round `r <= t`, the calls proceed until the round passes
      `t`, the call that makes it pass finishes the game, and every call after
      that is refused with the round left where it was. */
  lemma {:induction false} RunFrom(t: int, r: int, k: nat)
    requires r <= t
    ensures var run := Continues(Progress(Turns(t), r, true), k);
            && |run.replies| == k
            && (forall j :: 0 <= j < k ==> run.replies[j] == Expected(t, r, j))
            && run.final.round == (if r + k <= t + 1 then r + k else t + 1)
            && run.final.started == (r + k <= t)
            && run.final.turns == Turns(t)
    decreases k
  {
    if k > 0 {
      var p := Progress(Turns(t), r, true);
      var s := ContinueStep(p);
      if r + 1 <= t {
        RunFrom(t, r + 1, k - 1);
        var rest := Continues(s.next, k - 1);
        forall j | 0 <= j < k ensures Continues(p, k).replies[j] == Expected(t, r, j) {
          if j > 0 {
            assert Continues(p, k).replies[j] == rest.replies[j - 1];
          }
        }
      } else {
        FinishedStaysFinished(s.next, k - 1);
      }
    }
  }

  /** A game that is not started stays as it is, whatever the number of calls. */
  lemma {:induction false} FinishedStaysFinished(p: Progress, k: nat)
    requires !p.started
    ensures Continues(p, k) == Run(seq(k, j => NoActiveGame), p)
    decreases k
  {
    if k > 0 {
      FinishedStaysFinished(p, k - 1);
      assert seq(k, j => NoActiveGame) == [NoActiveGame] + seq(k - 1, j => NoActiveGame);
    }
  }

  /** After `/start` with `t >= 1` turns, the `k`-th call leaves round `1 + k`
      and the game finishes exactly on the `t`-th call. */
  lemma GameLastsTurns(t: int, k: nat)
    requires t >= 1
    ensures var run := Continues(AfterStart(Turns(t)), k);
            && |run.replies| == k
            && (k <= t ==> run.final.round == 1 + k)
            && (k > t ==> run.final.round == 1 + t)
            && run.final.started == (k < t)
            && (forall j :: 0 <= j < k ==> (run.replies[j] == GameFinished <==> j + 1 == t))
            && (forall j :: 0 <= j < k ==> (run.replies[j] == Proceed <==> j + 1 < t))
  {
    RunFrom(t, 1, k);
  }

  /** After `/start` with fewer than one turn, the first call finishes the
      game at round 2 and every later call is refused. */
  lemma {:induction false} ShortGameEndsAtOnce(t: int, k: nat)
    requires t < 1 && k >= 1
    ensures var run := Continues(AfterStart(Turns(t)), k);
            && run.replies == [GameFinished] + seq(k - 1, j => NoActiveGame)
            && run.final == Progress(Turns(t), 2, false)
  {
    var s := ContinueStep(AfterStart(Turns(t)));
    assert s == Step(GameFinished, Progress(Turns(t), 2, false));
    FinishedStaysFinished(s.next, k - 1);
  }

  /** With a turn limit that is not a number the game never ends. */
  lemma {:induction false} NaNNeverEnds(r: int, k: nat)
    ensures Continues(Progress(NaN, r, true), k) == Run(seq(k, j => Proceed), Progress(NaN, r + k, true))
    decreases k
  {
    if k > 0 {
      NaNNeverEnds(r + 1, k - 1);
      assert seq(k, j => Proceed) == [Proceed] + seq(k - 1, j => Proceed);
    }
  }

  /** The server's module-level `gameSettings` object. */
  class Game {
    var gptVersion: string
    var language: string
    var genre: string
    var turns: TurnLimit
    var round: int
    var isGameStarted: bool

    function CurrentProgress(): Progress
      reads this
    {
      Progress(turns, round, isGameStarted)
    }

    ghost predicate Valid()
      reads this
    {
      Playable(CurrentProgress())
    }

    /** `let gameSettings = {}`: no field is set, so the game is not
        started and `+turns` is NaN; the round is never read before a start. */
    constructor ()
      ensures Valid() && !isGameStarted && turns == NaN
    {
      gptVersion, language, genre := "", "", "";
      turns, round, isGameStarted := NaN, 0, false;
    }

    /** `/start`: replace the settings with the request's, at round 1,
        started. */
    method Start(gptVersion: string, language: string, genre: string, turns: TurnLimit)
      modifies this
      ensures this.gptVersion == gptVersion && this.language == language && this.genre == genre
      ensures Valid() && CurrentProgress() == AfterStart(turns)
    {
      this.gptVersion, this.language, this.genre := gptVersion, language, genre;
      this.turns, this.round, this.isGameStarted := turns, 1, true;
    }

    /** `/continue` up to the point where it would call the completion
        service: refuse when not started, count the round, and end the game
        once the round passes the turn limit. */
    method Continue() returns (reply: Reply)
      modifies this
      ensures Valid()
      ensures Step(reply, CurrentProgress()) == ContinueStep(old(CurrentProgress()))
      ensures gptVersion == old(gptVersion) && language == old(language) && genre == old(genre)
    {
      if !isGameStarted {
        return NoActiveGame;
      }
      round := round + 1;
      if Exceeds(round, turns) {
        isGameStarted := false;
        return GameFinished;
      }
      reply := Proceed;
    }
  }
}
