/**
 * CollaborativeAI.debate: a fixed number of Advocate/Critic rounds, each
 * turn's output threaded into the next prompt, then one Summarizer call
 * without tools.
 */
module Orchestration {
  import opened Wrappers
  import opened Text
  import opened Backend
  import opened Agent

  datatype Role = Advocate | Critic | Summarizer

  /** One entry of the debate log. */
  datatype Turn = Turn(round: int, role: Role, model: string, content: string)

  datatype DebateResult = DebateResult(log: seq<Turn>, final: string)

  /** A CollaborativeAI: the installed models and the model bound to each
      role; `verbose` only selects console narration. */
  datatype Session = Session(models: seq<string>, advocate: string, critic: string,
                             summarizer: string, verbose: bool)

  /** One call_model invocation made by the debate. */
  datatype AgentCall = AgentCall(model: string, prompt: string, useTools: bool)

  function OpeningPrompt(topic: string): string {
    "Present your opening position on: " + topic
  }

  function CritiquePrompt(statement: string): string {
    "Critically analyze: " + statement
  }

  function DecisionPrompt(topic: string): string {
    "Provide a concise final decision on: " + topic
  }

  /** call_model as the debate sees it: given every external call made
      before, the answer to one agent call and the external calls it made. */
  type Invoker = (seq<Event>, AgentCall) -> Answer

  /** call_model against `w`, as an invoker. Its ensures shows that the
      `requires Implements(agent, w)` of PlayRound, Conclude, PlayRounds,
      Debate and the scenario lemmas can be met. */
  function CallModelInvoker(w: World): (agent: Invoker)
    ensures Implements(agent, w)
  {
    (h: seq<Event>, c: AgentCall) => ModelCall(w, h, c.model, c.prompt, c.useTools)
  }

  /** `agent` answers every agent call as call_model does against `w`. */
  ghost predicate Implements(agent: Invoker, w: World) {
    forall h, model, prompt, useTools {:trigger ModelCall(w, h, model, prompt, useTools)} ::
      agent(h, AgentCall(model, prompt, useTools)) == ModelCall(w, h, model, prompt, useTools)
  }

  /** The debate's state between rounds: the log, the statement the next
      Advocate answers, the agent calls made and the external calls made. */
  datatype Progress = Progress(log: seq<Turn>, lastStmt: string, calls: seq<AgentCall>, events: seq<Event>)

  /** Round r: the Advocate answers the last statement, the Critic analyzes
      the Advocate's answer, and the Critic's answer is the next statement. */
  function Round(agent: Invoker, history: seq<Event>, s: Session, r: int, p: Progress): Progress {
    var adv := agent(history + p.events, AgentCall(s.advocate, p.lastStmt, true));
    var critPrompt := CritiquePrompt(adv.content);
    var crit := agent(history + (p.events + adv.events), AgentCall(s.critic, critPrompt, true));
    Progress(
      p.log + [Turn(r, Advocate, s.advocate, adv.content), Turn(r, Critic, s.critic, crit.content)],
      crit.content,
      p.calls + [AgentCall(s.advocate, p.lastStmt, true), AgentCall(s.critic, critPrompt, true)],
      p.events + adv.events + crit.events)
  }

  /** The state after the first n rounds. */
  function Rounds(agent: Invoker, history: seq<Event>, s: Session, topic: string, n: nat): Progress {
    if n == 0 then Progress([], OpeningPrompt(topic), [], [])
    else Round(agent, history, s, n, Rounds(agent, history, s, topic, n - 1))
  }

  /** What debate returns, with the agent calls and external calls it made. */
  datatype Outcome = Outcome(result: DebateResult, calls: seq<AgentCall>, events: seq<Event>)

  /** The Summarizer's closing call after the rounds recorded in `p`. */
  function Conclusion(agent: Invoker, history: seq<Event>, s: Session, topic: string, p: Progress): Outcome {
    var decision := DecisionPrompt(topic);
    var summary := agent(history + p.events, AgentCall(s.summarizer, decision, false));
    Outcome(DebateResult(p.log, summary.content),
            p.calls + [AgentCall(s.summarizer, decision, false)],
            p.events + summary.events)
  }

  function DebateRun(agent: Invoker, history: seq<Event>, s: Session, topic: string, rounds: int): Outcome {
    Conclusion(agent, history, s, topic, Rounds(agent, history, s, topic, if rounds > 0 then rounds else 0))
  }

  /** The contents of the log, in order. */
  function Contents(log: seq<Turn>): (r: seq<string>)
    ensures |r| == |log|
    ensures forall i :: 0 <= i < |log| ==> r[i] == log[i].content
  {
    if log == [] then [] else [log[0].content] + Contents(log[1..])
  }

  /** The prompt that produced entry i of the log, and for i == |log| the
      prompt the next Advocate would answer: the opening prompt first, then
      a Critic analyzes the entry before it and an Advocate answers the
      Critic before it. */
  function TurnPrompt(topic: string, log: seq<Turn>, i: nat): string
    requires i <= |log|
  {
    if i == 0 then OpeningPrompt(topic)
    else if i % 2 == 1 then CritiquePrompt(log[i - 1].content)
    else log[i - 1].content
  }

  /** Entry i of the log was made in round i / 2 + 1, by the Advocate at
      even positions and by the Critic at odd ones, and call i asked that
      turn's model the prompt threaded to it, with tools. */
  ghost predicate TurnShaped(s: Session, topic: string, log: seq<Turn>, calls: seq<AgentCall>, i: nat)
    requires i < |log| && i < |calls|
  {
    && log[i].round == i / 2 + 1
    && log[i].role == (if i % 2 == 0 then Advocate else Critic)
    && log[i].model == (if i % 2 == 0 then s.advocate else s.critic)
    && calls[i] == AgentCall(log[i].model, TurnPrompt(topic, log, i), true)
  }

  /** The shape of the state after n rounds. */
  ghost predicate Shaped(s: Session, topic: string, n: nat, p: Progress) {
    && |p.log| == 2 * n
    && |p.calls| == 2 * n
    && (forall i :: 0 <= i < 2 * n ==> TurnShaped(s, topic, p.log, p.calls, i))
    && p.lastStmt == TurnPrompt(topic, p.log, 2 * n)
  }

  /** A round appends an Advocate turn answering the last statement and a
      Critic turn analyzing it, and the Critic's answer is the next statement. */
  lemma ShapedStep(s: Session, topic: string, n: nat, p: Progress, q: Progress, adv: string, crit: string)
    requires 1 <= n && Shaped(s, topic, n - 1, p)
    requires q.log == p.log + [Turn(n, Advocate, s.advocate, adv), Turn(n, Critic, s.critic, crit)]
    requires q.calls == p.calls + [AgentCall(s.advocate, p.lastStmt, true), AgentCall(s.critic, CritiquePrompt(adv), true)]
    requires q.lastStmt == crit
    ensures Shaped(s, topic, n, q)
  {
    assert p.log == q.log[..|p.log|];
    forall i | 0 <= i < 2 * n
      ensures TurnShaped(s, topic, q.log, q.calls, i)
    {
      if i < 2 * n - 2 {
        TurnShapedKept(s, topic, p, q, i);
      } else if i == 2 * n - 2 {
        TurnPromptPrefix(topic, p.log, q.log, i);
        assert q.calls[i] == AgentCall(s.advocate, p.lastStmt, true);
      } else {
        assert TurnPrompt(topic, q.log, i) == CritiquePrompt(adv);
        assert q.calls[i] == AgentCall(s.critic, CritiquePrompt(adv), true);
      }
    }
    TurnPromptPrefix(topic, q.log, q.log, 2 * n);
  }

  /** Appending to the log and the calls keeps the earlier entries' shape. */
  lemma TurnShapedKept(s: Session, topic: string, p: Progress, q: Progress, i: nat)
    requires i < |p.log| <= |q.log| && i < |p.calls| <= |q.calls|
    requires p.log == q.log[..|p.log|] && p.calls == q.calls[..|p.calls|]
    requires TurnShaped(s, topic, p.log, p.calls, i)
    ensures TurnShaped(s, topic, q.log, q.calls, i)
  {
    assert q.log[i] == p.log[i] && q.calls[i] == p.calls[i];
    TurnPromptPrefix(topic, p.log, q.log, i);
  }

  /** The prompt of an entry depends only on the entries before it. */
  lemma TurnPromptPrefix(topic: string, log: seq<Turn>, longer: seq<Turn>, i: nat)
    requires i <= |log| <= |longer| && log == longer[..|log|]
    ensures TurnPrompt(topic, longer, i) == TurnPrompt(topic, log, i)
  {
    if i > 0 {
      assert longer[i - 1] == log[i - 1];
    }
  }

  lemma {:induction false} RoundsShape(agent: Invoker, history: seq<Event>, s: Session, topic: string, n: nat)
    ensures Shaped(s, topic, n, Rounds(agent, history, s, topic, n))
  {
    if n > 0 {
      var p := Rounds(agent, history, s, topic, n - 1);
      RoundsShape(agent, history, s, topic, n - 1);
      var adv := agent(history + p.events, AgentCall(s.advocate, p.lastStmt, true));
      var crit := agent(history + (p.events + adv.events), AgentCall(s.critic, CritiquePrompt(adv.content), true));
      ShapedStep(s, topic, n, p, Rounds(agent, history, s, topic, n), adv.content, crit.content);
    }
  }

  /** debate's log has two entries per round, Advocate then Critic, each
      turn answering the prompt threaded from the turn before it; the
      Summarizer is called once, last, without tools, on the decision
      prompt, and its output is `final` and is not logged. */
  lemma DebateShape(agent: Invoker, history: seq<Event>, s: Session, topic: string, rounds: int)
    ensures var o := DebateRun(agent, history, s, topic, rounds);
            var n := if rounds > 0 then rounds else 0;
            var log := o.result.log;
            && |log| == 2 * n
            && |o.calls| == 2 * n + 1
            && (forall i :: 0 <= i < 2 * n ==> TurnShaped(s, topic, log, o.calls, i))
            && o.calls[2 * n] == AgentCall(s.summarizer, DecisionPrompt(topic), false)
  {
    var n := if rounds > 0 then rounds else 0;
    RoundsShape(agent, history, s, topic, n);
    var p := Rounds(agent, history, s, topic, n);
    var o := DebateRun(agent, history, s, topic, rounds);
    assert o.calls[..2 * n] == p.calls;
    forall i | 0 <= i < 2 * n
      ensures TurnShaped(s, topic, o.result.log, o.calls, i)
    {
      TurnShapedKept(s, topic, p, Progress(o.result.log, p.lastStmt, o.calls, o.events), i);
    }
  }

  /** The transcript of agent calls made one after another. */
  datatype Transcript = Transcript(contents: seq<string>, events: seq<Event>)

  /** A reference reading of a debate: its agent calls replayed in order,
      each one seeing every external call made before it. */
  function Replay(agent: Invoker, history: seq<Event>, calls: seq<AgentCall>): (t: Transcript)
    ensures |t.contents| == |calls|
  {
    if calls == [] then Transcript([], [])
    else
      var prev := Replay(agent, history, calls[..|calls| - 1]);
      var c := calls[|calls| - 1];
      var a := agent(history + prev.events, c);
      Transcript(prev.contents + [a.content], prev.events + a.events)
  }

  lemma {:induction false} RoundsReplay(agent: Invoker, history: seq<Event>, s: Session, topic: string, n: nat)
    ensures var p := Rounds(agent, history, s, topic, n);
            Replay(agent, history, p.calls) == Transcript(Contents(p.log), p.events)
  {
    if n > 0 {
      var p := Rounds(agent, history, s, topic, n - 1);
      RoundsReplay(agent, history, s, topic, n - 1);
      var adv := agent(history + p.events, AgentCall(s.advocate, p.lastStmt, true));
      var critPrompt := CritiquePrompt(adv.content);
      var crit := agent(history + (p.events + adv.events), AgentCall(s.critic, critPrompt, true));
      var c1 := AgentCall(s.advocate, p.lastStmt, true);
      var c2 := AgentCall(s.critic, critPrompt, true);
      var q := Round(agent, history, s, n, p);
      assert q.calls == p.calls + [c1, c2];
      assert q.calls[..|q.calls| - 1] == p.calls + [c1];
      assert (p.calls + [c1])[..|p.calls|] == p.calls;
      assert Replay(agent, history, p.calls + [c1]) == Transcript(Contents(p.log) + [adv.content], p.events + adv.events);
      assert Contents(q.log) == Contents(p.log) + [adv.content] + [crit.content];
    }
  }

  /** The debate is its agent calls made one after another: the log holds
      the answer to each turn's call in order, `final` the answer to the
      last call, and no other external call is made. */
  lemma DebateReplay(agent: Invoker, history: seq<Event>, s: Session, topic: string, rounds: int)
    ensures var o := DebateRun(agent, history, s, topic, rounds);
            Replay(agent, history, o.calls) == Transcript(Contents(o.result.log) + [o.result.final], o.events)
  {
    var n := if rounds > 0 then rounds else 0;
    RoundsReplay(agent, history, s, topic, n);
    var p := Rounds(agent, history, s, topic, n);
    var o := DebateRun(agent, history, s, topic, rounds);
    assert o.calls[..|o.calls| - 1] == p.calls;
  }

  /** Rounds only append: the state after k rounds is a prefix of the state
      after n >= k rounds. */
  lemma {:induction false} RoundsPrefix(agent: Invoker, history: seq<Event>, s: Session, topic: string, k: nat, n: nat)
    requires k <= n
    ensures var pk := Rounds(agent, history, s, topic, k);
            var pn := Rounds(agent, history, s, topic, n);
            && |pk.log| <= |pn.log| && pk.log == pn.log[..|pk.log|]
            && |pk.calls| <= |pn.calls| && pk.calls == pn.calls[..|pk.calls|]
  {
    if k < n {
      RoundsPrefix(agent, history, s, topic, k, n - 1);
      RoundsShape(agent, history, s, topic, n - 1);
      RoundsShape(agent, history, s, topic, k);
      var pk := Rounds(agent, history, s, topic, k);
      var pm := Rounds(agent, history, s, topic, n - 1);
      var pn := Rounds(agent, history, s, topic, n);
      assert pn.log[..|pm.log|] == pm.log;
      assert pn.calls[..|pm.calls|] == pm.calls;
      assert pn.log[..|pk.log|] == pm.log[..|pk.log|];
      assert pn.calls[..|pk.calls|] == pm.calls[..|pk.calls|];
    }
  }

  /** The Summarizer is offered no tools and makes exactly one external call,
      whether it gets a reply or not. */
  lemma SummarizerWithoutTools(w: World, agent: Invoker, history: seq<Event>, s: Session, topic: string, rounds: int)
    requires Implements(agent, w)
    ensures var n := if rounds > 0 then rounds else 0;
            DebateRun(agent, history, s, topic, rounds).events
              == Rounds(agent, history, s, topic, n).events + [Chat(FirstRequest(s.summarizer, DecisionPrompt(topic), false))]
  {
    var n := if rounds > 0 then rounds else 0;
    var p := Rounds(agent, history, s, topic, n);
    var a := ModelCall(w, history + p.events, s.summarizer, DecisionPrompt(topic), false);
    assert agent(history + p.events, AgentCall(s.summarizer, DecisionPrompt(topic), false)) == a;
  }

  /** Round k + 1 of the debate: the Advocate's turn is the invoker's answer
      to the statement left by the first k rounds, and the Critic is asked
      to analyze that answer. */
  lemma AdvocateTurn(agent: Invoker, history: seq<Event>, s: Session, topic: string, rounds: int, k: nat)
    requires k < rounds
    ensures var o := DebateRun(agent, history, s, topic, rounds);
            var p := Rounds(agent, history, s, topic, k);
            var adv := agent(history + p.events, AgentCall(s.advocate, p.lastStmt, true));
            && |o.result.log| == 2 * rounds
            && |o.calls| == 2 * rounds + 1
            && o.result.log[2 * k] == Turn(k + 1, Advocate, s.advocate, adv.content)
            && o.calls[2 * k + 1] == AgentCall(s.critic, CritiquePrompt(adv.content), true)
  {
    var q := Rounds(agent, history, s, topic, k + 1);
    RoundsShape(agent, history, s, topic, k);
    RoundsShape(agent, history, s, topic, k + 1);
    RoundsShape(agent, history, s, topic, rounds);
    RoundsPrefix(agent, history, s, topic, k + 1, rounds);
    var pn := Rounds(agent, history, s, topic, rounds);
    assert pn.log[2 * k] == q.log[2 * k];
    assert pn.calls[2 * k + 1] == q.calls[2 * k + 1];
    var o := DebateRun(agent, history, s, topic, rounds);
    assert o.calls[2 * k + 1] == pn.calls[2 * k + 1];
  }

  /** A backend failure on an Advocate turn is not fatal: the turn's content
      is the error text, which names the model, the Critic analyzes that
      text, and the debate still completes all its rounds. */
  lemma AdvocateFailure(w: World, agent: Invoker, history: seq<Event>, s: Session, topic: string,
                        rounds: int, k: nat, error: string)
    requires Implements(agent, w)
    requires k < rounds
    requires var p := Rounds(agent, history, s, topic, k);
             w.chat(history + p.events, FirstRequest(s.advocate, p.lastStmt, true)) == ChatFailure(error)
    ensures var o := DebateRun(agent, history, s, topic, rounds);
            && |o.result.log| == 2 * rounds
            && |o.calls| == 2 * rounds + 1
            && o.result.log[2 * k] == Turn(k + 1, Advocate, s.advocate, ErrorText(s.advocate, error))
            && o.calls[2 * k + 1] == AgentCall(s.critic, CritiquePrompt(ErrorText(s.advocate, error)), true)
            && ErrorText(s.advocate, error)[|"Error calling "|..|"Error calling "| + |s.advocate|] == s.advocate
  {
    var p := Rounds(agent, history, s, topic, k);
    var adv := ModelCall(w, history + p.events, s.advocate, p.lastStmt, true);
    assert agent(history + p.events, AgentCall(s.advocate, p.lastStmt, true)) == adv;
    AdvocateTurn(agent, history, s, topic, rounds, k);
  }

  /** call_model against a backend whose first reply is `text` without tool
      calls returns `text` when it has no surrounding whitespace. */
  lemma PlainReply(w: World, history: seq<Event>, model: string, prompt: string, useTools: bool, text: string)
    requires w.chat(history, FirstRequest(model, prompt, useTools)) == ChatReply(AssistantMessage(Some(text), []))
    requires Strip(text) == text
    ensures ModelCall(w, history, model, prompt, useTools) == Answer(text, [Chat(FirstRequest(model, prompt, useTools))])
  {
  }

  /** An agent whose backend always answers `text` without tool calls
      answers `text` when it has no surrounding whitespace. */
  lemma PlainAnswer(w: World, agent: Invoker, history: seq<Event>, c: AgentCall, text: string)
    requires Implements(agent, w)
    requires forall h, req: ChatRequest :: req.model == c.model ==>
               w.chat(h, req) == ChatReply(AssistantMessage(Some(text), []))
    requires text == [] || (!IsSpace(text[0]) && !IsSpace(text[|text| - 1]))
    ensures agent(history, c).content == text
  {
    assert Strip(text) == text by { StripUnchanged(text); }
    var first := FirstRequest(c.model, c.prompt, c.useTools);
    assert w.chat(history, first) == ChatReply(AssistantMessage(Some(text), []));
    PlainReply(w, history, c.model, c.prompt, c.useTools, text);
    assert agent(history, AgentCall(c.model, c.prompt, c.useTools)) == ModelCall(w, history, c.model, c.prompt, c.useTools);
  }

  /** One round: the log holds the Advocate's answer to the opening prompt
      and the Critic's analysis of it, and `final` is the Summarizer's
      answer. */
  lemma OneRound(agent: Invoker, history: seq<Event>, s: Session, topic: string)
    ensures var adv := agent(history, AgentCall(s.advocate, OpeningPrompt(topic), true));
            var crit := agent(history + adv.events, AgentCall(s.critic, CritiquePrompt(adv.content), true));
            var sum := agent(history + (adv.events + crit.events), AgentCall(s.summarizer, DecisionPrompt(topic), false));
            DebateRun(agent, history, s, topic, 1).result
              == DebateResult([Turn(1, Advocate, s.advocate, adv.content), Turn(1, Critic, s.critic, crit.content)],
                              sum.content)
  {
    var p0 := Rounds(agent, history, s, topic, 0);
    assert p0.events == [];
    assert history + p0.events == history;
    var adv := agent(history, AgentCall(s.advocate, OpeningPrompt(topic), true));
    assert p0.events + adv.events == adv.events;
    var crit := agent(history + adv.events, AgentCall(s.critic, CritiquePrompt(adv.content), true));
    assert Rounds(agent, history, s, topic, 1).events == adv.events + crit.events;
  }

  /** One round against backends that always answer the same text without
      tool calls, as in "Position X", "Rebuttal Y" and "Decision Z": the log
      is the Advocate's and the Critic's text, and `final` is the
      Summarizer's. */
  lemma OneRoundScenario(w: World, agent: Invoker, history: seq<Event>, s: Session, topic: string,
                         position: string, rebuttal: string, decision: string)
    requires Implements(agent, w)
    requires forall h, req: ChatRequest :: req.model == s.advocate ==>
               w.chat(h, req) == ChatReply(AssistantMessage(Some(position), []))
    requires forall h, req: ChatRequest :: req.model == s.critic ==>
               w.chat(h, req) == ChatReply(AssistantMessage(Some(rebuttal), []))
    requires forall h, req: ChatRequest :: req.model == s.summarizer ==>
               w.chat(h, req) == ChatReply(AssistantMessage(Some(decision), []))
    requires position == [] || (!IsSpace(position[0]) && !IsSpace(position[|position| - 1]))
    requires rebuttal == [] || (!IsSpace(rebuttal[0]) && !IsSpace(rebuttal[|rebuttal| - 1]))
    requires decision == [] || (!IsSpace(decision[0]) && !IsSpace(decision[|decision| - 1]))
    ensures DebateRun(agent, history, s, topic, 1).result
              == DebateResult([Turn(1, Advocate, s.advocate, position), Turn(1, Critic, s.critic, rebuttal)],
                              decision)
  {
    OneRound(agent, history, s, topic);
    var advCall := AgentCall(s.advocate, OpeningPrompt(topic), true);
    PlainAnswer(w, agent, history, advCall, position);
    var adv := agent(history, advCall);
    var critCall := AgentCall(s.critic, CritiquePrompt(adv.content), true);
    PlainAnswer(w, agent, history + adv.events, critCall, rebuttal);
    var crit := agent(history + adv.events, critCall);
    PlainAnswer(w, agent, history + (adv.events + crit.events), AgentCall(s.summarizer, DecisionPrompt(topic), false), decision);
  }

  /** The body of debate's loop: round r, from the state `p`. */
  method PlayRound(w: World, ghost agent: Invoker, history: seq<Event>, s: Session, r: int, p: Progress) returns (next: Progress)
    requires Implements(agent, w)
    ensures next == Round(agent, history, s, r, p)
  {
    var log, lastStmt, calls, events := p.log, p.lastStmt, p.calls, p.events;
    var adv, advEvents := CallModel(w, history + events, s.advocate, lastStmt, true);
    log := log + [Turn(r, Advocate, s.advocate, adv)];
    calls := calls + [AgentCall(s.advocate, lastStmt, true)];
    events := events + advEvents;
    var critPrompt := CritiquePrompt(adv);
    var crit, critEvents := CallModel(w, history + events, s.critic, critPrompt, true);
    log := log + [Turn(r, Critic, s.critic, crit)];
    calls := calls + [AgentCall(s.critic, critPrompt, true)];
    events := events + critEvents;
    lastStmt := crit;
    assert log == p.log + [Turn(r, Advocate, s.advocate, adv), Turn(r, Critic, s.critic, crit)];
    assert calls == p.calls + [AgentCall(s.advocate, p.lastStmt, true), AgentCall(s.critic, critPrompt, true)];
    next := Progress(log, lastStmt, calls, events);
  }

  /** The tail of debate: the Summarizer answers without tools. */
  method Conclude(w: World, ghost agent: Invoker, history: seq<Event>, s: Session, topic: string, p: Progress)
    returns (result: DebateResult, calls: seq<AgentCall>, events: seq<Event>)
    requires Implements(agent, w)
    ensures Outcome(result, calls, events) == Conclusion(agent, history, s, topic, p)
  {
    var decision := DecisionPrompt(topic);
    var summary, summaryEvents := CallModel(w, history + p.events, s.summarizer, decision, false);
    result := DebateResult(p.log, summary);
    calls := p.calls + [AgentCall(s.summarizer, decision, false)];
    events := p.events + summaryEvents;
  }

  /** debate's loop over the rounds. */
  method PlayRounds(w: World, ghost agent: Invoker, history: seq<Event>, s: Session, topic: string, rounds: int) returns (p: Progress)
    requires Implements(agent, w)
    ensures p == Rounds(agent, history, s, topic, if rounds > 0 then rounds else 0)
  {
    p := Progress([], OpeningPrompt(topic), [], []);
    var done := 0;
    while done < rounds
      invariant 0 <= done <= (if rounds > 0 then rounds else 0)
      invariant p == Rounds(agent, history, s, topic, done)
    {
      p := PlayRound(w, agent, history, s, done + 1, p);
      done := done + 1;
    }
  }

  /** debate: `history` is every external call made before it. */
  method Debate(w: World, ghost agent: Invoker, history: seq<Event>, s: Session, topic: string, rounds: int)
    returns (result: DebateResult, calls: seq<AgentCall>, events: seq<Event>)
    requires Implements(agent, w)
    ensures Outcome(result, calls, events) == DebateRun(agent, history, s, topic, rounds)
  {
    var p := PlayRounds(w, agent, history, s, topic, rounds);
    result, calls, events := Conclude(w, agent, history, s, topic, p);
  }
}
