/** The game master side of the role-playing bot: the instructions a new
    assistant is created with, the per-player registry of assistants and
    conversation threads, and the loop that polls a run until it reaches a
    terminal status. Remote ids, observed run statuses and listed messages
    are supplied by the caller. */
module GameSession {
  import opened Wrappers

  // ---------------------------------------------------------------------
  // generate_instruction

  /** The game settings as the template literal renders them: each field is
      the text `${value}` produces for it. */
  datatype GameSettings = GameSettings(genre: string, maxChars: string, turns: string, language: string)

  /** The fixed text of the instruction template between the interpolated
      settings, in order. */
  const Intro := "You are the author of an interactive quest in a "
  const AfterGenre := " setting. \n    Come up with an interesting story. Your message is a part of the story that forces the player(s) to make a choice.\n    The game should consist of a short part (up to "
  const AfterMaxChars := " characters) of your story and the options for player actions you propose.\n    At the end of each of your messages, ask a question about how the player should act in the current situation. \n    Offer at minimum three options to choose from, but leave the opportunity to offer actions by player.\n    The quest must be completed within "
  const AfterTurns := " player(s) turns.\n    The game can be played by only one player. \n    Create a story. Players will respond with the structure {\"user\": \"Response\"}.\n    With each turn the situation should become more intense and logically related to the previous turn.\n    The player may encounter various dangers on theirs journey. \n    If the player chooses a bad answer, player may die and then the game will end.\n    Use a speaking style that suits the chosen setting.\n    Each time you would be notified with the current turn/round number.\n        Make sure to finish the story within "
  const AfterRounds := " rounds.\n        Don't ask the user anything after the game finishes. Just congratulate.\n    Communicate with players in ("
  const AfterLanguage := " language). Each response should be in the same language - "
  const Closing := ".\n    After the end of the game (due to the death of all players or due to the fact that all turns have ended), invite the player(s) to start again (to do this, they needs to enter and send \"/create\")"

  /** The fixed pieces in template order. */
  const Chunks := [Intro, AfterGenre, AfterMaxChars, AfterTurns, AfterRounds, AfterLanguage, Closing]

  /** A template literal: the fixed pieces with one value between each
      neighbouring pair. */
  function Interpolate(chunks: seq<string>, values: seq<string>): string
    requires |chunks| == |values| + 1
    decreases |values|
  {
    if values == [] then chunks[0]
    else chunks[0] + values[0] + Interpolate(chunks[1..], values[1..])
  }

  /** Where the `k`-th value starts in `Interpolate(chunks, values)`. */
  function Slot(chunks: seq<string>, values: seq<string>, k: nat): nat
    requires |chunks| == |values| + 1 && k < |values|
    decreases k
  {
    |chunks[0]| + if k == 0 then 0 else |values[0]| + Slot(chunks[1..], values[1..], k - 1)
  }

  /** A slice inside the left operand of a concatenation. */
  lemma SliceLeft(a: string, b: string, lo: nat, hi: nat)
    requires lo <= hi <= |a|
    ensures (a + b)[lo..hi] == a[lo..hi]
  {
    assert forall j :: 0 <= j < hi - lo ==> (a + b)[lo..hi][j] == a[lo..hi][j];
  }

  /** A slice inside the right operand of a concatenation. */
  lemma SliceRight(a: string, b: string, lo: nat, hi: nat)
    requires lo <= hi <= |b|
    ensures (a + b)[|a| + lo..|a| + hi] == b[lo..hi]
  {
    assert forall j :: 0 <= j < hi - lo ==> (a + b)[|a| + lo..|a| + hi][j] == b[lo..hi][j];
  }

  /** Each value stands verbatim at its slot. */
  lemma {:induction false} InterpolateEmbeds(chunks: seq<string>, values: seq<string>, k: nat)
    requires |chunks| == |values| + 1 && k < |values|
    ensures var r, at := Interpolate(chunks, values), Slot(chunks, values, k);
            at + |values[k]| <= |r| && r[at..at + |values[k]|] == values[k]
    decreases k
  {
    var rest := Interpolate(chunks[1..], values[1..]);
    var head := chunks[0] + values[0];
    assert Interpolate(chunks, values) == head + rest;
    if k == 0 {
      SliceLeft(head, rest, |chunks[0]|, |head|);
      SliceRight(chunks[0], values[0], 0, |values[0]|);
      assert values[0][0..|values[0]|] == values[0];
    } else {
      InterpolateEmbeds(chunks[1..], values[1..], k - 1);
      var at := Slot(chunks[1..], values[1..], k - 1);
      assert values[1..][k - 1] == values[k];
      SliceRight(head, rest, at, at + |values[k]|);
    }
  }

  /** The settings in the order the template interpolates them. */
  function Interpolated(g: GameSettings): seq<string>
  {
    [g.genre, g.maxChars, g.turns, g.turns, g.language, g.language]
  }

  /** `generate_instruction`: the template with the settings filled in. */
  function GenerateInstruction(g: GameSettings): string
  {
    Interpolate(Chunks, Interpolated(g))
  }

  /** Every setting appears verbatim in the instruction: the genre once, the
      maximum length once, the turn count twice and the language twice. */
  lemma InstructionEmbedsSettings(g: GameSettings)
    ensures var r, v := GenerateInstruction(g), Interpolated(g);
            && v == [g.genre, g.maxChars, g.turns, g.turns, g.language, g.language]
            && forall k :: 0 <= k < |v| ==>
                 Slot(Chunks, v, k) + |v[k]| <= |r| && r[Slot(Chunks, v, k)..Slot(Chunks, v, k) + |v[k]|] == v[k]
  {
    var v := Interpolated(g);
    forall k | 0 <= k < |v|
      ensures Slot(Chunks, v, k) + |v[k]| <= |GenerateInstruction(g)|
      ensures GenerateInstruction(g)[Slot(Chunks, v, k)..Slot(Chunks, v, k) + |v[k]|] == v[k]
    {
      InterpolateEmbeds(Chunks, v, k);
    }
  }

  // ---------------------------------------------------------------------
  // Polling a run

  /** The statuses a run can report. */
  datatype RunStatus =
    | Queued | InProgress | RequiresAction | Cancelling
    | Cancelled | Failed | Completed | Incomplete | Expired

  /** The statuses on which the poller clears its interval. */
  predicate IsTerminal(s: RunStatus)
  {
    s == Completed || s == Failed || s == Expired || s == Cancelled
  }

  /** A content part of a message; only text parts carry `text.value`. */
  datatype Content = Text(value: string) | NonText

  /** What the poller's promise becomes. `Pending`: no terminal status was
      observed yet, so the interval keeps firing. `Unsettled`: the run
      completed but the newest message does not start with a text part, so
      the callback throws after clearing the interval and the promise is
      never resolved. */
  datatype Poll = Resolved(text: string) | Pending | Unsettled

  /** The reply given for a run that failed, expired or was cancelled. */
  const Fallback := "Sorry, I am having trouble understanding you. Could you please rephrase your question?"

  /** The first text part of the newest message (messages are listed newest
      first). */
  function NewestText(messages: seq<seq<Content>>): Poll
  {
    if messages != [] && messages[0] != [] && messages[0][0].Text? then Resolved(messages[0][0].value)
    else Unsettled
  }

  /** What one tick does on a terminal status. */
  function Settle(s: RunStatus, messages: seq<seq<Content>>): (p: Poll)
    requires IsTerminal(s)
    ensures !p.Pending?
  {
    if s == Completed then NewestText(messages) else Resolved(Fallback)
  }

  /** The outcome of polling, with the number of status retrievals made. */
  datatype PollRun = PollRun(outcome: Poll, ticks: nat)

  /** Polling over the statuses the successive ticks observe. */
  function PollSpec(statuses: seq<RunStatus>, messages: seq<seq<Content>>): PollRun
  {
    if statuses == [] then PollRun(Pending, 0)
    else if IsTerminal(statuses[0]) then PollRun(Settle(statuses[0], messages), 1)
    else
      var rest := PollSpec(statuses[1..], messages);
      PollRun(rest.outcome, rest.ticks + 1)
  }

  /** The interval loop: retrieve the status once per tick and stop at the
      first terminal one. */
  method AwaitRun(statuses: seq<RunStatus>, messages: seq<seq<Content>>) returns (outcome: Poll, ticks: nat)
    ensures PollRun(outcome, ticks) == PollSpec(statuses, messages)
  {
    var i := 0;
    while i < |statuses|
      invariant 0 <= i <= |statuses|
      invariant PollSpec(statuses, messages)
             == var rest := PollSpec(statuses[i..], messages); PollRun(rest.outcome, rest.ticks + i)
    {
      if IsTerminal(statuses[i]) {
        outcome := Settle(statuses[i], messages);
        ticks := i + 1;
        return;
      }
      assert statuses[i..][1..] == statuses[i + 1..];
      i := i + 1;
    }
    outcome, ticks := Pending, |statuses|;
  }

  /** The first terminal status decides the outcome, after exactly as many
      retrievals as statuses up to and including it. */
  lemma {:induction false} PollStopsAtFirstTerminal(statuses: seq<RunStatus>, messages: seq<seq<Content>>, k: nat)
    requires k < |statuses| && IsTerminal(statuses[k])
    requires forall j :: 0 <= j < k ==> !IsTerminal(statuses[j])
    ensures PollSpec(statuses, messages) == PollRun(Settle(statuses[k], messages), k + 1)
  {
    if k > 0 {
      PollStopsAtFirstTerminal(statuses[1..], messages, k - 1);
    }
  }

  /** A completed run yields the newest message's text. */
  lemma PollCompleted(statuses: seq<RunStatus>, messages: seq<seq<Content>>, k: nat, text: string)
    requires k < |statuses| && statuses[k] == Completed
    requires forall j :: 0 <= j < k ==> !IsTerminal(statuses[j])
    requires messages != [] && messages[0] != [] && messages[0][0] == Text(text)
    ensures PollSpec(statuses, messages).outcome == Resolved(text)
  {
    PollStopsAtFirstTerminal(statuses, messages, k);
  }

  /** A failed, expired or cancelled run yields the fixed fallback reply,
      whatever the thread holds. */
  lemma PollGivesUp(statuses: seq<RunStatus>, messages: seq<seq<Content>>, k: nat)
    requires k < |statuses| && (statuses[k] == Failed || statuses[k] == Expired || statuses[k] == Cancelled)
    requires forall j :: 0 <= j < k ==> !IsTerminal(statuses[j])
    ensures PollSpec(statuses, messages).outcome == Resolved(Fallback)
  {
    PollStopsAtFirstTerminal(statuses, messages, k);
  }

  /** Polling goes on exactly as long as no terminal status has been seen,
      and then it has retrieved every observed status. */
  lemma {:induction false} PollPendingIff(statuses: seq<RunStatus>, messages: seq<seq<Content>>)
    ensures var p := PollSpec(statuses, messages);
            && (p.outcome.Pending? <==> forall j :: 0 <= j < |statuses| ==> !IsTerminal(statuses[j]))
            && (p.outcome.Pending? ==> p.ticks == |statuses|)
            && p.ticks <= |statuses|
  {
    if statuses != [] {
      PollPendingIff(statuses[1..], messages);
      if !IsTerminal(statuses[0]) {
        assert forall j :: 1 <= j < |statuses| ==> statuses[j] == statuses[1..][j - 1];
      }
    }
  }

  /** Statuses after the first terminal one are never consulted. */
  lemma {:induction false} PollIgnoresLaterStatuses(statuses: seq<RunStatus>, later: seq<RunStatus>,
                                                    messages: seq<seq<Content>>)
    requires !PollSpec(statuses, messages).outcome.Pending?
    ensures PollSpec(statuses + later, messages) == PollSpec(statuses, messages)
  {
    assert statuses != [];
    if !IsTerminal(statuses[0]) {
      assert (statuses + later)[1..] == statuses[1..] + later;
      PollIgnoresLaterStatuses(statuses[1..], later, messages);
    }
  }

  // ---------------------------------------------------------------------
  // The session registry

  /** One wallet's entry: its assistant and its thread per session id. */
  datatype Player = Player(assistantId: string, sessions: map<string, string>)

  /** The request that creates a wallet's assistant. */
  datatype AssistantRequest = AssistantRequest(name: string, instructions: string, model: string)

  const GameMasterName := "Roleplaying game master"
  const AssistantModel := "gpt-4o"

  /** A run is created on a thread for an assistant. */
  datatype RunRequest = RunRequest(threadId: string, assistantId: string)

  /** A wallet's sessions live in a plain object. Assigning a string to its
      `__proto__` key goes to the inherited setter, which ignores it, and
      reading that key gives the object's prototype rather than a thread id. */
  const ProtoKey := "__proto__"

  /** `sessions[sessionId] = threadId` on a plain object. */
  function Assign(sessions: map<string, string>, sessionId: string, threadId: string): map<string, string>
  {
    if sessionId == ProtoKey then sessions else sessions[sessionId := threadId]
  }

  /** The registry after a start of `(wallet, sessionId)`, where
      `assistantId` is the id a newly created assistant would get and
      `threadId` that of the newly created thread. */
  function Started(players: map<string, Player>, wallet: string, sessionId: string,
                   assistantId: string, threadId: string): map<string, Player>
  {
    var p := if wallet in players then players[wallet] else Player(assistantId, map[]);
    players[wallet := p.(sessions := Assign(p.sessions, sessionId, threadId))]
  }

  /** After a start the wallet is registered, the session maps to the new
      thread (except under `__proto__`, where nothing is recorded), and the
      assistant is the new one exactly when the wallet was unknown. */
  lemma StartedRecordsThread(players: map<string, Player>, wallet: string, sessionId: string,
                             assistantId: string, threadId: string)
    ensures var r := Started(players, wallet, sessionId, assistantId, threadId);
            && wallet in r
            && (sessionId != ProtoKey ==> sessionId in r[wallet].sessions && r[wallet].sessions[sessionId] == threadId)
            && (sessionId == ProtoKey ==>
                  r[wallet].sessions == if wallet in players then players[wallet].sessions else map[])
            && r[wallet].assistantId == (if wallet in players then players[wallet].assistantId else assistantId)
            && (wallet !in players && sessionId != ProtoKey ==> r[wallet].sessions == map[sessionId := threadId])
  {
  }

  /** A start touches no other wallet and no other session of its wallet. */
  lemma StartedKeepsOthers(players: map<string, Player>, wallet: string, sessionId: string,
                           assistantId: string, threadId: string)
    ensures var r := Started(players, wallet, sessionId, assistantId, threadId);
            && r.Keys == players.Keys + {wallet}
            && (forall w :: w in players && w != wallet ==> r[w] == players[w])
            && (forall s :: s != sessionId ==>
                  (s in r[wallet].sessions <==> wallet in players && s in players[wallet].sessions))
            && (forall s :: s != sessionId && s in r[wallet].sessions ==>
                  r[wallet].sessions[s] == players[wallet].sessions[s])
  {
  }

  /** One call of `startGameSession`, with the ids the service hands out. */
  datatype StartCall = StartCall(wallet: string, sessionId: string, assistantId: string, threadId: string)

  /** The registry after a series of starts. */
  function StartAll(players: map<string, Player>, calls: seq<StartCall>): map<string, Player>
    decreases |calls|
  {
    if calls == [] then players
    else
      var c := calls[0];
      StartAll(Started(players, c.wallet, c.sessionId, c.assistantId, c.threadId), calls[1..])
  }

  /** The wallets for which a series of starts creates an assistant, in order. */
  function Creations(players: map<string, Player>, calls: seq<StartCall>): seq<string>
    decreases |calls|
  {
    if calls == [] then []
    else
      var c := calls[0];
      (if c.wallet in players then [] else [c.wallet])
        + Creations(Started(players, c.wallet, c.sessionId, c.assistantId, c.threadId), calls[1..])
  }

  function Wallets(calls: seq<StartCall>): set<string>
  {
    set c | c in calls :: c.wallet
  }

  /** However many later starts there are, with whatever settings, a
      registered wallet keeps its assistant. */
  lemma {:induction false} AssistantNeverChanges(players: map<string, Player>, calls: seq<StartCall>, wallet: string)
    requires wallet in players
    ensures var r := StartAll(players, calls);
            wallet in r && r[wallet].assistantId == players[wallet].assistantId
    decreases |calls|
  {
    if calls != [] {
      var c := calls[0];
      StartedRecordsThread(players, c.wallet, c.sessionId, c.assistantId, c.threadId);
      AssistantNeverChanges(Started(players, c.wallet, c.sessionId, c.assistantId, c.threadId), calls[1..], wallet);
    }
  }

  /** Assistants are created once per wallet: exactly for the wallets that
      were not registered yet, never twice for the same one; afterwards every
      started wallet is registered. */
  lemma {:induction false} OneAssistantPerWallet(players: map<string, Player>, calls: seq<StartCall>)
    ensures var created := Creations(players, calls);
            && (forall i, j :: 0 <= i < j < |created| ==> created[i] != created[j])
            && (set w | w in created) == Wallets(calls) - players.Keys
            && StartAll(players, calls).Keys == players.Keys + Wallets(calls)
    decreases |calls|
  {
    if calls != [] {
      var c := calls[0];
      var next := Started(players, c.wallet, c.sessionId, c.assistantId, c.threadId);
      OneAssistantPerWallet(next, calls[1..]);
      assert next.Keys == players.Keys + {c.wallet};
      assert Wallets(calls) == {c.wallet} + Wallets(calls[1..]) by {
        assert forall x :: x in calls <==> x == c || x in calls[1..];
      }
      var rest := Creations(next, calls[1..]);
      assert forall w :: w in rest ==> w !in next.Keys by {
        assert (set w | w in rest) == Wallets(calls[1..]) - next.Keys;
      }
      var head := if c.wallet in players then [] else [c.wallet];
      assert Creations(players, calls) == head + rest;
      assert (set w | w in head + rest) == (set w | w in head) + (set w | w in rest);
      assert (set w | w in head) == {c.wallet} - players.Keys;
    }
  }

  /** What `sendQuery` sends and gets back. */
  datatype Exchange = Exchange(threadId: string, assistantId: string, prompt: string, outcome: Poll, ticks: nat)

  /** The registry of the game server: wallet to assistant and threads. */
  class SessionRegistry {
    var players: map<string, Player>

    constructor ()
      ensures players == map[]
    {
      players := map[];
    }

    /** `startGameSession`: create the wallet's assistant if it has none,
        record a fresh thread for the session, run the assistant on it and
        poll the run. */
    method StartGameSession(wallet: string, sessionId: string, settings: GameSettings,
                            newAssistantId: string, newThreadId: string,
                            statuses: seq<RunStatus>, messages: seq<seq<Content>>)
      returns (created: Option<AssistantRequest>, run: RunRequest, outcome: Poll, ticks: nat)
      modifies this
      ensures players == Started(old(players), wallet, sessionId, newAssistantId, newThreadId)
      ensures created == if wallet in old(players) then None
                         else Some(AssistantRequest(GameMasterName, GenerateInstruction(settings), AssistantModel))
      ensures run == RunRequest(newThreadId, players[wallet].assistantId)
      ensures PollRun(outcome, ticks) == PollSpec(statuses, messages)
    {
      created := None;
      if wallet !in players {
        created := Some(AssistantRequest(GameMasterName, GenerateInstruction(settings), AssistantModel));
        players := players[wallet := Player(newAssistantId, map[])];
      }
      var assistantId := players[wallet].assistantId;
      var p := players[wallet];
      if sessionId != ProtoKey {
        players := players[wallet := p.(sessions := p.sessions[sessionId := newThreadId])];
      }
      run := RunRequest(newThreadId, assistantId);
      outcome, ticks := AwaitRun(statuses, messages);
    }

    /** `sendQuery`: look up the session's thread and the wallet's assistant,
        post the prompt, run and poll. An unknown wallet or session leaves
        the thread id undefined, and `__proto__` gives the prototype object
        instead of an id; either way posting the message rejects (`None`).
        The registry is only read. */
    method SendQuery(wallet: string, sessionId: string, userPrompt: string,
                     statuses: seq<RunStatus>, messages: seq<seq<Content>>)
      returns (r: Option<Exchange>)
      ensures r.None? <==> !(wallet in players && sessionId != ProtoKey && sessionId in players[wallet].sessions)
      ensures r.Some? ==>
                && r.value.threadId == players[wallet].sessions[sessionId]
                && r.value.assistantId == players[wallet].assistantId
                && r.value.prompt == userPrompt
                && PollRun(r.value.outcome, r.value.ticks) == PollSpec(statuses, messages)
    {
      if wallet !in players || sessionId == ProtoKey || sessionId !in players[wallet].sessions {
        return None;
      }
      var entry := players[wallet];
      var outcome, ticks := AwaitRun(statuses, messages);
      r := Some(Exchange(entry.sessions[sessionId], entry.assistantId, userPrompt, outcome, ticks));
    }
  }
}
