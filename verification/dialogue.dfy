/**
 * One pass of the assistant's main loop once an utterance has been heard:
 * the calculator shortcut, retrieval, context assembly, the chat call and
 * the storing of both turns; and a session as a sequence of such passes.
 */
module Dialogue {
  import opened Wrappers
  import opened Faults
  import opened MemoryStore
  import opened Retrieval
  import opened Classifier

  /** The fixed instruction that opens every chat request. */
  const SystemPrompt: Message := Message("system", "You are a helpful voice assistant. Keep responses concise.")

  /** How one heard utterance ended. */
  datatype Outcome =
    | Silent                      // nothing was recognised; the loop waits for the next wake word
    | Calculated(expression: string)  // handed to the calculator; memory untouched
    | Replied(response: string)   // the chat model answered and both turns were stored
    | Crashed(error: Fault)       // an uncaught exception ended the loop

  /** An outcome together with the state the loop is left in. */
  datatype Turn = Turn(outcome: Outcome, world: World)

  /** A session: the outcome of every utterance handled, and the final state. */
  datatype Session = Session(outcomes: seq<Outcome>, world: World)

  /** The chat request: the instruction, the retrieved turns in order, then the new user turn. */
  function BuildMessages(past: seq<Message>, userInput: string): (msgs: seq<Message>)
    ensures |msgs| == |past| + 2
    ensures msgs[0] == SystemPrompt
    ensures msgs[1..|msgs| - 1] == past
    ensures msgs[|msgs| - 1] == Message("user", userInput)
  {
    [SystemPrompt] + past + [Message("user", userInput)]
  }

  /** The two new log entries of a completed exchange. */
  function ExchangeRecords(userInput: string, response: string): seq<Message> {
    [Message("user", userInput), Message("assistant", response)]
  }

  /** Handle a recognised utterance (the body of the loop's `try` block). */
  function HandleText(w: World, text: string, svc: Services): (t: Turn)
    ensures t.outcome.Calculated? <==> IsMathExpression(text)
    ensures t.outcome.Calculated? ==> t.outcome.expression == text && t.world == w
    ensures !t.outcome.Silent?
    ensures t.outcome.Replied? ==> t.world.mem.log == w.mem.log + ExchangeRecords(text, t.outcome.response)
    ensures t.outcome.Replied? ==> svc.embed(text).Some? && svc.embed(t.outcome.response).Some?
    ensures t.outcome.Replied? ==>
      t.world.mem.index.vectors == w.mem.index.vectors + [svc.embed(text).value, svc.embed(t.outcome.response).value]
    ensures t.outcome.Crashed? && t.world != w ==>
      t.outcome.error == EmbeddingFailed && t.world.mem.log == w.mem.log + [Message("user", text)]
    ensures t.outcome.Crashed? && t.outcome.error != EmbeddingFailed ==> t.world == w
    ensures Aligned(w.mem) ==> Aligned(t.world.mem)
    ensures Persisted(w) ==> Persisted(t.world)
    ensures t.world != w ==> t.world.mem.index.dimension == w.mem.index.dimension && t.world.disk == Save(t.world.mem)
    ensures t.outcome.Crashed? && t.world != w ==>
      svc.embed(text).Some? && t.world.mem.index.vectors == w.mem.index.vectors + [svc.embed(text).value]
    ensures !IsMathExpression(text) && Retrieve(w.mem, text, TopK, svc).Failure? ==>
      t == Turn(Crashed(Retrieve(w.mem, text, TopK, svc).error), w)
    ensures !IsMathExpression(text) && Retrieve(w.mem, text, TopK, svc).Success? ==>
      var reply := svc.complete(BuildMessages(Retrieve(w.mem, text, TopK, svc).value, text));
      && (reply.None? ==> t == Turn(Crashed(GenerationFailed), w))
      && (reply.Some? && svc.embed(text).Some? && svc.embed(reply.value).Some? ==> t.outcome == Replied(reply.value))
      && (reply.Some? && svc.embed(text).None? ==> t == Turn(Crashed(EmbeddingFailed), w))
      && (reply.Some? && svc.embed(text).Some? && svc.embed(reply.value).None? ==>
            t.outcome == Crashed(EmbeddingFailed) && t.world.mem.log == w.mem.log + [Message("user", text)])
  {
    if IsMathExpression(text) then Turn(Calculated(text), w)
    else
      match Retrieve(w.mem, text, TopK, svc)
      case Failure(e) => Turn(Crashed(e), w)
      case Success(past) =>
        match svc.complete(BuildMessages(past, text))
        case None => Turn(Crashed(GenerationFailed), w)
        case Some(response) =>
          match StoreMessage(w, text, "user", svc.embed)
          case Failure(e) => Turn(Crashed(e), w)
          case Success(w1) =>
            match StoreMessage(w1, response, "assistant", svc.embed)
            case Failure(e) => Turn(Crashed(e), w1)
            case Success(w2) => Turn(Replied(response), w2)
  }

  /**
   * The loop as written: a silent recording yields `None`, and the
   * classifier's regular-expression search raises `TypeError` on it.
   */
  function ExchangeAsWritten(w: World, heard: Option<string>, svc: Services): (t: Turn)
    ensures heard.None? ==> t == Turn(Crashed(TypeError), w)
    ensures heard.Some? ==> t == HandleText(w, heard.value, svc)
  {
    match heard
    case None => Turn(Crashed(TypeError), w)
    case Some(text) => HandleText(w, text, svc)
  }

  /** The loop as intended: a silent recording returns to waiting for the wake word. */
  function Exchange(w: World, heard: Option<string>, svc: Services): (t: Turn)
    ensures heard.None? ==> t == Turn(Silent, w)
    ensures t.outcome.Silent? <==> heard.None?
    ensures heard.Some? ==> t == ExchangeAsWritten(w, heard, svc)
  {
    match heard
    case None => Turn(Silent, w)
    case Some(text) => HandleText(w, text, svc)
  }

  /** The loop over a sequence of recordings; an uncaught exception ends it. */
  function Run(w: World, heard: seq<Option<string>>, svc: Services): (s: Session)
    ensures |s.outcomes| <= |heard|
    ensures forall j :: 0 <= j < |s.outcomes| - 1 ==> !s.outcomes[j].Crashed?
    ensures |s.outcomes| == |heard| || (|s.outcomes| > 0 && s.outcomes[|s.outcomes| - 1].Crashed?)
    ensures heard != [] ==> |s.outcomes| > 0 && s.outcomes[0] == Exchange(w, heard[0], svc).outcome
    ensures heard != [] && Exchange(w, heard[0], svc).outcome.Crashed? ==>
      s == Session([Exchange(w, heard[0], svc).outcome], Exchange(w, heard[0], svc).world)
    decreases |heard|
  {
    if heard == [] then Session([], w)
    else
      var t := Exchange(w, heard[0], svc);
      if t.outcome.Crashed? then Session([t.outcome], t.world)
      else
        var rest := Run(t.world, heard[1..], svc);
        Session([t.outcome] + rest.outcomes, rest.world)
  }

  /** Number of completed exchanges among `outcomes`. */
  function Replies(outcomes: seq<Outcome>): nat
    decreases |outcomes|
  {
    if outcomes == [] then 0
    else (if outcomes[0].Replied? then 1 else 0) + Replies(outcomes[1..])
  }

  /** The calculator shortcut consults no service and leaves memory and disk alone. */
  lemma MathShortcutConsultsNoService(w: World, text: string, svc1: Services, svc2: Services)
    requires IsMathExpression(text)
    ensures HandleText(w, text, svc1) == HandleText(w, text, svc2) == Turn(Calculated(text), w)
  {
  }

  /** A completed exchange sent the instruction, the retrieved turns and the user turn, in that order. */
  lemma ReplyFollowsAssembledContext(w: World, text: string, svc: Services)
    requires HandleText(w, text, svc).outcome.Replied?
    ensures Retrieve(w.mem, text, TopK, svc).Success?
    ensures svc.complete(BuildMessages(Retrieve(w.mem, text, TopK, svc).value, text))
      == Some(HandleText(w, text, svc).outcome.response)
  {
  }

  /** A failed chat call stores nothing: no user turn without its reply. */
  lemma GenerationFailureStoresNothing(w: World, text: string, svc: Services)
    requires !IsMathExpression(text)
    requires Retrieve(w.mem, text, TopK, svc).Success?
    requires svc.complete(BuildMessages(Retrieve(w.mem, text, TopK, svc).value, text)).None?
    ensures HandleText(w, text, svc) == Turn(Crashed(GenerationFailed), w)
  {
  }

  /**
   * The user turn is persisted before the reply is embedded, so a failing
   * embedding call for the reply leaves an orphaned user turn behind.
   */
  lemma ReplyEmbeddingFailureOrphansUserTurn(w: World, text: string, svc: Services)
    requires !IsMathExpression(text)
    requires Retrieve(w.mem, text, TopK, svc).Success?
    requires svc.complete(BuildMessages(Retrieve(w.mem, text, TopK, svc).value, text)).Some?
    requires svc.embed(text).Some?
    requires svc.embed(svc.complete(BuildMessages(Retrieve(w.mem, text, TopK, svc).value, text)).value).None?
    ensures HandleText(w, text, svc).outcome == Crashed(EmbeddingFailed)
    ensures HandleText(w, text, svc).world.mem.log == w.mem.log + [Message("user", text)]
  {
  }

  /** Silence ends the loop as written but is harmless in the corrected loop. */
  lemma SilenceCrashesAsWritten(w: World, svc: Services)
    ensures ExchangeAsWritten(w, None, svc).outcome == Crashed(TypeError)
    ensures Exchange(w, None, svc) == Turn(Silent, w)
  {
  }

  /**
   * Over any session started from a persisted state the store stays
   * persisted (and aligned, if it was aligned), the log only
   * grows, and it grows by two per completed exchange plus at most one
   * orphaned user turn.
   */
  lemma {:induction false} RunKeepsStoreConsistent(w: World, heard: seq<Option<string>>, svc: Services)
    requires Persisted(w)
    ensures Aligned(w.mem) ==> Aligned(Run(w, heard, svc).world.mem)
    ensures Persisted(Run(w, heard, svc).world)
    ensures w.mem.log <= Run(w, heard, svc).world.mem.log
    ensures 2 * Replies(Run(w, heard, svc).outcomes) <= |Run(w, heard, svc).world.mem.log| - |w.mem.log|
      <= 2 * Replies(Run(w, heard, svc).outcomes) + 1
    decreases |heard|
  {
    if heard != [] {
      var t := Exchange(w, heard[0], svc);
      if !t.outcome.Crashed? {
        RunKeepsStoreConsistent(t.world, heard[1..], svc);
        var rest := Run(t.world, heard[1..], svc);
        assert ([t.outcome] + rest.outcomes)[1..] == rest.outcomes;
        assert t.outcome.Replied? ==> |t.world.mem.log| == |w.mem.log| + 2;
        assert !t.outcome.Replied? ==> t.world == w;
      } else {
        assert [t.outcome][1..] == [];
      }
    }
  }

  /** A session of one recording is that recording's exchange. */
  lemma RunSingle(w: World, h: Option<string>, svc: Services)
    ensures Run(w, [h], svc) == Session([Exchange(w, h, svc).outcome], Exchange(w, h, svc).world)
  {
    assert [h][1..] == [];
  }

  /** Sequence concatenation associates. */
  lemma AppendAssociates<T>(x: seq<T>, y: seq<T>, z: seq<T>)
    ensures x + (y + z) == (x + y) + z
  {
  }

  /** One step of a session: a recording that does not crash is followed by the rest, from its state. */
  lemma RunStep(w: World, heard: seq<Option<string>>, svc: Services)
    requires heard != [] && !Exchange(w, heard[0], svc).outcome.Crashed?
    ensures Run(w, heard, svc) ==
      Session([Exchange(w, heard[0], svc).outcome] + Run(Exchange(w, heard[0], svc).world, heard[1..], svc).outcomes,
              Run(Exchange(w, heard[0], svc).world, heard[1..], svc).world)
  {
  }

  /**
   * Sessions compose: when the first part is handled completely without a
   * crash, the rest is handled from the state the first part left.
   */
  lemma {:induction false} RunConcat(w: World, a: seq<Option<string>>, b: seq<Option<string>>, svc: Services)
    requires |Run(w, a, svc).outcomes| == |a|
    requires forall j :: 0 <= j < |a| ==> !Run(w, a, svc).outcomes[j].Crashed?
    ensures Run(w, a + b, svc) ==
      Session(Run(w, a, svc).outcomes + Run(Run(w, a, svc).world, b, svc).outcomes,
              Run(Run(w, a, svc).world, b, svc).world)
    decreases |a|
  {
    if a == [] {
      assert a + b == b;
    } else {
      var t := Exchange(w, a[0], svc);
      var ra := Run(t.world, a[1..], svc);
      var rb := Run(ra.world, b, svc);
      assert !t.outcome.Crashed?;
      RunStep(w, a, svc);
      assert Run(w, a, svc).outcomes == [t.outcome] + ra.outcomes;
      assert Run(w, a, svc).world == ra.world;
      forall j | 0 <= j < |a[1..]|
        ensures !ra.outcomes[j].Crashed?
      {
        assert ra.outcomes[j] == Run(w, a, svc).outcomes[j + 1];
      }
      RunConcat(t.world, a[1..], b, svc);
      assert (a + b)[0] == a[0];
      assert (a + b)[1..] == a[1..] + b;
      RunStep(w, a + b, svc);
      AppendAssociates([t.outcome], ra.outcomes, rb.outcomes);
    }
  }

  /** A fresh start (no files on disk) gives an empty, aligned store that agrees with the (empty) disk. */
  lemma FreshStartIsConsistent()
    ensures Load(Disk(None, None)).log == []
    ensures Aligned(Load(Disk(None, None)))
    ensures Persisted(World(Load(Disk(None, None)), Disk(None, None)))
  {
  }
}
