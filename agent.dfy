/**
 * CollaborativeAI.wiki_tool and CollaborativeAI.call_model: one agent turn,
 * with the mediation of the wiki_search tool.
 */
module Agent {
  import opened Wrappers
  import opened Text
  import opened Wiki
  import opened Backend

  const WikiSearchTool: string := "wiki_search"
  const FactsHeader: string := "Wikipedia facts:\n"

  // ---------------------------------------------------------------------
  // wiki_tool
  // ---------------------------------------------------------------------

  /** The block rendered for the result numbered `i`. */
  function Block(i: nat, r: LookupResult): string {
    Decimal(i) + ". " + r.title + "\n   " + r.snippet + "\n   URL: " + r.url + "\n\n"
  }

  /** The blocks of all results, numbered from 1 in order. */
  function Blocks(rs: seq<LookupResult>): string {
    if rs == [] then "" else Blocks(rs[..|rs| - 1]) + Block(|rs|, rs[|rs| - 1])
  }

  function Render(rs: seq<LookupResult>): string {
    FactsHeader + Blocks(rs)
  }

  /** The text fed back to the model for a lookup whose request ended in `fetched`. */
  function Observation(fetched: FetchOutcome): string {
    Render(SearchResults(fetched, DefaultSentences))
  }

  /** wiki_tool: look the query up and render the results. */
  method WikiTool(w: World, history: seq<Event>, query: string) returns (out: string)
    ensures out == Observation(w.fetch(history, query))
  {
    var results := Search(w.fetch(history, query), DefaultSentences);
    out := FactsHeader;
    for i := 0 to |results|
      invariant out == Render(results[..i])
    {
      RenderExtends(results, i);
      out := out + Block(i + 1, results[i]);
    }
    assert results[..|results|] == results;
  }

  /** Rendering the first k results gives a prefix of the whole rendering, and
      the (k+1)-th result adds exactly its block, numbered k+1. */
  lemma {:induction false} RenderExtends(rs: seq<LookupResult>, k: nat)
    requires k < |rs|
    ensures Render(rs[..k + 1]) == Render(rs[..k]) + Block(k + 1, rs[k])
    ensures Render(rs[..k + 1]) <= Render(rs)
    decreases |rs| - k
  {
    assert rs[..k + 1][..k] == rs[..k];
    if k + 1 < |rs| {
      RenderExtends(rs, k + 1);
    } else {
      assert rs[..k + 1] == rs;
    }
  }

  /** Since a lookup always yields one result, the observation is the header
      and a single block numbered 1. */
  lemma ObservationIsOneBlock(fetched: FetchOutcome)
    ensures Observation(fetched) == FactsHeader + Block(1, SearchResults(fetched, DefaultSentences)[0])
    ensures Decimal(1) == "1"
  {
    var rs := SearchResults(fetched, DefaultSentences);
    assert rs[..0] == [];
    assert Blocks(rs) == Block(1, rs[0]);
  }

  // ---------------------------------------------------------------------
  // call_model
  // ---------------------------------------------------------------------

  function SystemPrompt(model: string): string {
    "You are " + model + ". You must provide a specific, concrete answer "
    + "to the user\U{2019}s prompt. Respond according to your assigned role "
    + "(Advocate, Critic, or Summarizer)."
  }

  /** The first call: system instruction and prompt, tools offered or not. */
  function FirstRequest(model: string, prompt: string, useTools: bool): ChatRequest {
    ChatRequest(model, [SystemMessage(SystemPrompt(model)), UserMessage(prompt)], useTools)
  }

  function ErrorText(model: string, error: string): string {
    "Error calling " + model + ": " + error
  }

  /** The state of call_model inside its loop over the tool calls. */
  datatype Context = Context(messages: seq<Message>, content: string, events: seq<Event>)

  /** One pass of the loop: a wiki_search call is looked up, the reply and the
      observation are appended, and one more call is made without tools,
      whose failure keeps the content; any other tool call changes nothing. */
  function ToolStep(w: World, history: seq<Event>, model: string, reply: AssistantMessage,
                    c: Context, tc: ToolCall): Context
  {
    if tc.name != WikiSearchTool then c
    else
      var q := QueryOf(tc);
      var observation := Observation(w.fetch(history + c.events, q));
      var messages := c.messages + [Assistant(reply), ToolMessage(observation, tc.id)];
      var request := ChatRequest(model, messages, false);
      var events := c.events + [Lookup(q)];
      var content := match w.chat(history + events, request)
                     case ChatReply(m) => Strip(ContentOf(m))
                     case ChatFailure(_) => c.content;
      Context(messages, content, events + [Chat(request)])
  }

  function ToolLoop(w: World, history: seq<Event>, model: string, reply: AssistantMessage,
                    c: Context, tcs: seq<ToolCall>): Context
  {
    if tcs == [] then c
    else ToolStep(w, history, model, reply, ToolLoop(w, history, model, reply, c, tcs[..|tcs| - 1]), tcs[|tcs| - 1])
  }

  /** What call_model returns and the external calls it makes. */
  datatype Answer = Answer(content: string, events: seq<Event>)

  function ModelCall(w: World, history: seq<Event>, model: string, prompt: string, useTools: bool): Answer {
    var first := FirstRequest(model, prompt, useTools);
    match w.chat(history, first)
    case ChatFailure(e) => Answer(ErrorText(model, e), [Chat(first)])
    case ChatReply(m) =>
      var content := Strip(ContentOf(m));
      if useTools && m.toolCalls != [] then
        var c := ToolLoop(w, history, model, m, Context(first.messages, content, [Chat(first)]), m.toolCalls);
        Answer(c.content, c.events)
      else Answer(content, [Chat(first)])
  }

  /** The pass of the loop for a wiki_search call, spelled out. */
  lemma ToolStepWiki(w: World, history: seq<Event>, model: string, reply: AssistantMessage,
                     c: Context, tc: ToolCall, outcome: ChatOutcome)
    requires tc.name == WikiSearchTool
    requires
      var q := QueryOf(tc);
      var messages := c.messages + [Assistant(reply), ToolMessage(Observation(w.fetch(history + c.events, q)), tc.id)];
      outcome == w.chat(history + (c.events + [Lookup(q)]), ChatRequest(model, messages, false))
    ensures
      var q := QueryOf(tc);
      var messages := c.messages + [Assistant(reply), ToolMessage(Observation(w.fetch(history + c.events, q)), tc.id)];
      var request := ChatRequest(model, messages, false);
      ToolStep(w, history, model, reply, c, tc) ==
        Context(messages, if outcome.ChatReply? then Strip(ContentOf(outcome.message)) else c.content,
                c.events + [Lookup(q), Chat(request)])
  {
    var q := QueryOf(tc);
    assert c.events + [Lookup(q)] + [Chat(ChatRequest(model, c.messages + [Assistant(reply), ToolMessage(Observation(w.fetch(history + c.events, q)), tc.id)], false))]
        == c.events + [Lookup(q), Chat(ChatRequest(model, c.messages + [Assistant(reply), ToolMessage(Observation(w.fetch(history + c.events, q)), tc.id)], false))];
  }

  /** The loop of call_model over the tool calls of its first reply. */
  method ResolveToolCalls(w: World, history: seq<Event>, model: string, reply: AssistantMessage, start: Context)
    returns (messages: seq<Message>, content: string, events: seq<Event>)
    ensures Context(messages, content, events) == ToolLoop(w, history, model, reply, start, reply.toolCalls)
  {
    messages, content, events := start.messages, start.content, start.events;
    var calls := reply.toolCalls;
    for i := 0 to |calls|
      invariant Context(messages, content, events) == ToolLoop(w, history, model, reply, start, calls[..i])
    {
      assert calls[..i + 1][..i] == calls[..i];
      ghost var before := Context(messages, content, events);
      var tc := calls[i];
      if tc.name == WikiSearchTool {
        var q := QueryOf(tc);
        var observation := WikiTool(w, history + events, q);
        events := events + [Lookup(q)];
        messages := messages + [Assistant(reply), ToolMessage(observation, tc.id)];
        var resolution := ChatRequest(model, messages, false);
        var resp := w.chat(history + events, resolution);
        if resp.ChatReply? {
          content := Strip(ContentOf(resp.message));
        }
        events := events + [Chat(resolution)];
        ToolStepWiki(w, history, model, reply, before, tc, resp);
      }
    }
    assert calls[..|calls|] == calls;
  }

  /** call_model: `history` is every external call made before this one; the
      events returned are the calls this one makes, in order. */
  method CallModel(w: World, history: seq<Event>, model: string, prompt: string, useTools: bool)
    returns (content: string, events: seq<Event>)
    ensures Answer(content, events) == ModelCall(w, history, model, prompt, useTools)
  {
    var request := FirstRequest(model, prompt, useTools);
    var resp := w.chat(history, request);
    events := [Chat(request)];
    if resp.ChatFailure? {
      content := ErrorText(model, resp.error);
      return;
    }
    content := Strip(ContentOf(resp.message));
    if useTools && resp.message.toolCalls != [] {
      var messages;
      messages, content, events := ResolveToolCalls(w, history, model, resp.message, Context(request.messages, content, events));
    }
  }
}

/** What call_model promises about the external calls it makes and the text
    it returns, stated over the trace of events. */
module AgentTrace {
  import opened Text
  import opened Wiki
  import opened Backend
  import opened Agent

  /** The wiki_search calls among `tcs`, in order: the only ones call_model acts on. */
  function WikiCalls(tcs: seq<ToolCall>): (r: seq<ToolCall>)
    ensures |r| <= |tcs|
    ensures forall i :: 0 <= i < |r| ==> r[i].name == WikiSearchTool
    ensures forall t :: t in r <==> t in tcs && t.name == WikiSearchTool
  {
    if tcs == [] then []
    else WikiCalls(tcs[..|tcs| - 1]) + (if tcs[|tcs| - 1].name == WikiSearchTool then [tcs[|tcs| - 1]] else [])
  }

  /** The stripped content of the latest chat call after the first one that
      got a reply, or `fallback` if there is none. */
  function LatestReply(w: World, history: seq<Event>, events: seq<Event>, fallback: string): string {
    if |events| <= 1 then fallback
    else
      var j := |events| - 1;
      if events[j].Chat? && w.chat(history + events[..j], events[j].request).ChatReply?
      then Strip(ContentOf(w.chat(history + events[..j], events[j].request).message))
      else LatestReply(w, history, events[..j], fallback)
  }

  /** The k-th wiki_search call `tc` was handled: one lookup of its query,
      then one call without tools whose context is the previous call's,
      extended with the first reply and the rendered observation. */
  ghost predicate ResolvedCall(w: World, history: seq<Event>, model: string, reply: AssistantMessage,
                               events: seq<Event>, k: nat, tc: ToolCall)
    requires 2 * k + 2 < |events|
  {
    var q := QueryOf(tc);
    && events[2 * k].Chat?
    && events[2 * k + 1] == Lookup(q)
    && events[2 * k + 2] == Chat(ChatRequest(model,
         events[2 * k].request.messages
           + [Assistant(reply), ToolMessage(Observation(w.fetch(history + events[..2 * k + 1], q)), tc.id)],
         false))
  }

  /** The calls made by a call_model whose first call, `first`, got
      `reply`, and which then handled the wiki_search calls `wiki`. */
  ghost predicate Layout(w: World, history: seq<Event>, model: string, reply: AssistantMessage,
                         first: ChatRequest, wiki: seq<ToolCall>, events: seq<Event>)
  {
    && |events| == 1 + 2 * |wiki|
    && events[0] == Chat(first)
    && events[|events| - 1].Chat?
    && (forall k :: 0 <= k < |wiki| ==> ResolvedCall(w, history, model, reply, events, k, wiki[k]))
  }

  /** ... and the content it returns, given the first reply's stripped content. */
  ghost predicate Resolved(w: World, history: seq<Event>, model: string, reply: AssistantMessage,
                           first: ChatRequest, fallback: string, wiki: seq<ToolCall>,
                           events: seq<Event>, content: string)
  {
    Layout(w, history, model, reply, first, wiki, events) && content == LatestReply(w, history, events, fallback)
  }

  lemma ResolvedCallKept(w: World, history: seq<Event>, model: string, reply: AssistantMessage,
                         events: seq<Event>, more: seq<Event>, k: nat, tc: ToolCall)
    requires 2 * k + 2 < |events|
    requires ResolvedCall(w, history, model, reply, events, k, tc)
    ensures ResolvedCall(w, history, model, reply, events + more, k, tc)
  {
    assert (events + more)[..2 * k + 1] == events[..2 * k + 1];
  }

  /** One more wiki_search call extends the trace by its lookup and its
      resolution call. */
  lemma ToolStepLayout(w: World, history: seq<Event>, model: string, reply: AssistantMessage,
                       first: ChatRequest, wiki: seq<ToolCall>, c: Context, tc: ToolCall)
    requires Layout(w, history, model, reply, first, wiki, c.events)
    requires c.messages == c.events[|c.events| - 1].request.messages
    requires tc.name == WikiSearchTool
    ensures var c' := ToolStep(w, history, model, reply, c, tc);
            && Layout(w, history, model, reply, first, wiki + [tc], c'.events)
            && c'.messages == c'.events[|c'.events| - 1].request.messages
  {
    var c' := ToolStep(w, history, model, reply, c, tc);
    var n := |c.events|;
    var more := c'.events[n..];
    assert c'.events == c.events + more;
    forall k | 0 <= k < |wiki|
      ensures ResolvedCall(w, history, model, reply, c'.events, k, (wiki + [tc])[k])
    {
      ResolvedCallKept(w, history, model, reply, c.events, more, k, wiki[k]);
    }
    assert c'.events[..n] == c.events;
    assert ResolvedCall(w, history, model, reply, c'.events, |wiki|, tc);
  }

  /** ... and the content follows the outcome of that resolution call. */
  lemma ToolStepContent(w: World, history: seq<Event>, model: string, reply: AssistantMessage,
                        fallback: string, c: Context, tc: ToolCall)
    requires c.content == LatestReply(w, history, c.events, fallback)
    requires tc.name == WikiSearchTool
    ensures var c' := ToolStep(w, history, model, reply, c, tc);
            c'.content == LatestReply(w, history, c'.events, fallback)
  {
    var c' := ToolStep(w, history, model, reply, c, tc);
    var n := |c.events|;
    var q := QueryOf(tc);
    var lookedUp := c.events + [Lookup(q)];
    var request := ChatRequest(model,
      c.messages + [Assistant(reply), ToolMessage(Observation(w.fetch(history + c.events, q)), tc.id)], false);
    var outcome := w.chat(history + lookedUp, request);
    ToolStepWiki(w, history, model, reply, c, tc, outcome);
    assert c'.events == lookedUp + [Chat(request)];
    assert c'.events[..n + 1] == lookedUp;
    assert lookedUp[..n] == c.events;
    if outcome.ChatFailure? {
      assert LatestReply(w, history, lookedUp, fallback) == c.content;
    }
  }

  /** Running the loop over any tool calls leaves the trace of the
      wiki_search calls among them. */
  lemma {:induction false} ToolLoopResolves(w: World, history: seq<Event>, model: string, reply: AssistantMessage,
                                            first: ChatRequest, fallback: string, tcs: seq<ToolCall>)
    ensures var c := ToolLoop(w, history, model, reply, Context(first.messages, fallback, [Chat(first)]), tcs);
            && Resolved(w, history, model, reply, first, fallback, WikiCalls(tcs), c.events, c.content)
            && c.messages == c.events[|c.events| - 1].request.messages
  {
    var start := Context(first.messages, fallback, [Chat(first)]);
    if tcs != [] {
      var init, tc := tcs[..|tcs| - 1], tcs[|tcs| - 1];
      ToolLoopResolves(w, history, model, reply, first, fallback, init);
      if tc.name == WikiSearchTool {
        var before := ToolLoop(w, history, model, reply, start, init);
        ToolStepLayout(w, history, model, reply, first, WikiCalls(init), before, tc);
        ToolStepContent(w, history, model, reply, fallback, before, tc);
      }
    }
  }

  /** call_model, all cases: a failed first call gives the error text and
      nothing else happens; otherwise exactly the wiki_search calls of the
      reply are handled, none when tools were not offered, and the content is
      that of the latest resolution call that got a reply, or the first
      reply's when there is none. */
  lemma ModelCallTrace(w: World, history: seq<Event>, model: string, prompt: string, useTools: bool)
    ensures var a := ModelCall(w, history, model, prompt, useTools);
            var first := FirstRequest(model, prompt, useTools);
            match w.chat(history, first)
            case ChatFailure(e) => a.content == ErrorText(model, e) && a.events == [Chat(first)]
            case ChatReply(m) =>
              Resolved(w, history, model, m, first, Strip(ContentOf(m)),
                       if useTools then WikiCalls(m.toolCalls) else [], a.events, a.content)
  {
    var first := FirstRequest(model, prompt, useTools);
    var outcome := w.chat(history, first);
    if outcome.ChatReply? && useTools && outcome.message.toolCalls != [] {
      ToolLoopResolves(w, history, model, outcome.message, first, Strip(ContentOf(outcome.message)), outcome.message.toolCalls);
    }
  }

  /** Tool calls other than wiki_search are ignored: the loop does the same
      over the wiki_search calls alone. */
  lemma {:induction false} ToolLoopIgnoresOthers(w: World, history: seq<Event>, model: string,
                                                 reply: AssistantMessage, c: Context, tcs: seq<ToolCall>)
    ensures ToolLoop(w, history, model, reply, c, tcs) == ToolLoop(w, history, model, reply, c, WikiCalls(tcs))
  {
    if tcs != [] {
      var init, tc := tcs[..|tcs| - 1], tcs[|tcs| - 1];
      ToolLoopIgnoresOthers(w, history, model, reply, c, init);
      var before := ToolLoop(w, history, model, reply, c, init);
      assert ToolLoop(w, history, model, reply, c, tcs) == ToolStep(w, history, model, reply, before, tc);
      if tc.name == WikiSearchTool {
        var ws := WikiCalls(init) + [tc];
        assert WikiCalls(tcs) == ws;
        assert ws[..|ws| - 1] == WikiCalls(init);
        assert ToolLoop(w, history, model, reply, c, ws) == ToolStep(w, history, model, reply, before, tc);
      } else {
        assert WikiCalls(tcs) == WikiCalls(init) + [];
        assert WikiCalls(init) + [] == WikiCalls(init);
      }
    }
  }

  /** When every resolution call failed, the content is the fallback. */
  lemma {:induction false} FailedResolutionsKeepContent(w: World, history: seq<Event>, events: seq<Event>, fallback: string)
    requires forall j :: 1 <= j < |events| && events[j].Chat? ==>
               w.chat(history + events[..j], events[j].request).ChatFailure?
    ensures LatestReply(w, history, events, fallback) == fallback
  {
    if |events| > 1 {
      var init := events[..|events| - 1];
      forall j | 1 <= j < |init| && init[j].Chat?
        ensures w.chat(history + init[..j], init[j].request).ChatFailure?
      {
        assert init[..j] == events[..j];
      }
      FailedResolutionsKeepContent(w, history, init, fallback);
    }
  }
}
