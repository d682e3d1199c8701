/**
 * The generate-and-publish orchestration (`main(retry)`): one call of the
 * question generator, the validity guard `question && options.length > 0`, the
 * publisher on success, and on failure one re-entry with `retry = true`.
 *
 * The generation service is an oracle: `gen(k)` is what the k-th call of the
 * generator yields. The messaging service is one too: `deliver(k)` is how the
 * poll request made in the attempt that used generator call k fared. The
 * external effects are recorded as a trace of events.
 */
module Orchestrator {
  import opened JsModel
  import opened TelegramPoll

  /**
   * What one call of the generator yields: it throws (unreachable service, or
   * text that `JSON.parse` rejects, or a `null` that cannot be destructured), or
   * it yields the three destructured fields; the question and the options may be
   * absent, and the index is an integer.
   */
  datatype Generated =
    | Failed
    | Ok(question: Option<string>, options: Option<seq<string>>, correctOptionId: int)

  /** The recorded effects: a call of the generator, and a request to the polling service. */
  datatype Event = GenerateCalled(call: nat) | PollPosted(request: PollRequest)

  /**
   * The result of running a block from generator call `k` on: the effects it
   * had, the index of the next generator call, and how it completed.
   */
  datatype Run = Run(events: seq<Event>, next: nat, completion: Completion)

  /** The three ways the guard on line 84 can go. */
  datatype Verdict =
    | Publish(question: string, options: seq<string>, correctOptionId: int)
    | NothingGenerated       // the question is falsy, or options is empty
    | ReadsUndefinedLength   // the question is truthy and options is absent: a TypeError

  /**
   * `question && options.length > 0`. A falsy question short-circuits, so an
   * absent `options` throws only behind a truthy question. `correctOptionId` is
   * passed through unchecked.
   */
  function Guard(question: Option<string>, options: Option<seq<string>>, correctOptionId: int): (v: Verdict)
    ensures v.Publish? <==> Truthy(question) && options.Some? && |options.value| > 0
    ensures v.Publish? ==> v == Publish(question.value, options.value, correctOptionId)
    ensures v.ReadsUndefinedLength? <==> Truthy(question) && options.None?
  {
    if !Truthy(question) then NothingGenerated
    else if options.None? then ReadsUndefinedLength
    else if |options.value| > 0 then Publish(question.value, options.value, correctOptionId)
    else NothingGenerated
  }

  /** A generation whose record passes the guard. */
  predicate PassesGuard(g: Generated)
  {
    g.Ok? && Truthy(g.question) && g.options.Some? && |g.options.value| > 0
  }

  /** The request the publisher makes for a generation that passes the guard. */
  function RequestFor(cfg: Config, g: Generated, delivery: Delivery): PollRequest
    requires PassesGuard(g)
  {
    PollRequest(PollUrl(cfg.botToken), PollForm(cfg.chatId, g.question.value, g.options.value, g.correctOptionId), delivery)
  }

  /** A generation that yields a record with no question or no options: "No question or options generated" (line 88). */
  predicate Empty(g: Generated)
  {
    g.Ok? && (!Truthy(g.question) || (g.options.Some? && |g.options.value| == 0))
  }

  /** A generation that ends in a thrown error, caught as "Error in main function" (line 95). */
  predicate Throws(g: Generated)
  {
    g.Failed? || (g.Ok? && Truthy(g.question) && g.options.None?)
  }

  /** Every generation is exactly one of passing the guard, empty and throwing, and the guard agrees. */
  lemma GenerationCases(g: Generated)
    ensures PassesGuard(g) || Empty(g) || Throws(g)
    ensures !(PassesGuard(g) && Empty(g)) && !(PassesGuard(g) && Throws(g)) && !(Empty(g) && Throws(g))
    ensures g.Ok? ==> (Guard(g.question, g.options, g.correctOptionId).Publish? <==> PassesGuard(g))
    ensures g.Ok? ==> (Guard(g.question, g.options, g.correctOptionId).NothingGenerated? <==> Empty(g))
  {
  }

  /**
   * The body of the `try` block, lines 82-93, entered with generator call `k`
   * next. On an empty result in the first attempt it awaits `main(true)` from
   * INSIDE the try, so an error of that inner call would reach this catch.
   */
  function TryResult(cfg: Config, gen: nat -> Generated, deliver: nat -> Delivery, k: nat, retry: bool): (r: Run)
    decreases if retry then 0 else 1, 0
    ensures k < r.next
    ensures |r.events| > 0 && r.events[0] == GenerateCalled(k)
  {
    var called := [GenerateCalled(k)];
    match gen(k)
    case Failed => Run(called, k + 1, Threw(GenerationError))
    case Ok(q, o, id) =>
      match Guard(q, o, id)
      case Publish(question, options, correctOptionId) =>
        var p := CreateTelegramPoll(cfg, question, options, correctOptionId, deliver(k));
        Run(called + [PollPosted(p.request)], k + 1, p.completion)
      case NothingGenerated =>
        if !retry then
          var inner := MainResult(cfg, gen, deliver, k + 1, true);
          Run(called + inner.events, inner.next, inner.completion)
        else
          Run(called, k + 1, Normal)
      case ReadsUndefinedLength => Run(called, k + 1, Threw(TypeError))
  }

  /**
   * `main(retry)`, lines 80-101, entered with generator call `k` next: the try
   * block, and a catch that logs, re-enters once with `retry = true` when this is
   * the first attempt, and otherwise returns. The returned promise never rejects.
   */
  function MainResult(cfg: Config, gen: nat -> Generated, deliver: nat -> Delivery, k: nat, retry: bool): (r: Run)
    decreases if retry then 0 else 1, 1
    ensures r.completion == Normal
    ensures k < r.next
  {
    var t := TryResult(cfg, gen, deliver, k, retry);
    if t.completion.Normal? then t
    else if !retry then
      var inner := MainResult(cfg, gen, deliver, t.next, true);
      Run(t.events + inner.events, inner.next, inner.completion)
    else
      Run(t.events, t.next, Normal)
  }

  /** The generator calls recorded in a trace. */
  function Generations(events: seq<Event>): nat
  {
    if events == [] then 0
    else (if events[0].GenerateCalled? then 1 else 0) + Generations(events[1..])
  }

  /** The poll requests recorded in a trace, in order. */
  function Posts(events: seq<Event>): (posts: seq<PollRequest>)
    ensures |posts| <= |events|
  {
    if events == [] then []
    else (if events[0].PollPosted? then [events[0].request] else []) + Posts(events[1..])
  }

  lemma {:induction false} CountsAppend(a: seq<Event>, b: seq<Event>)
    ensures Generations(a + b) == Generations(a) + Generations(b)
    ensures Posts(a + b) == Posts(a) + Posts(b)
  {
    if a == [] {
      assert a + b == b;
    } else {
      assert (a + b)[1..] == a[1..] + b;
      CountsAppend(a[1..], b);
    }
  }

  /**
   * The retry attempt, `main(true)`, calls the generator exactly once and never
   * re-enters; it posts exactly the values of that generation when they pass
   * the guard, and nothing otherwise.
   */
  lemma RetryRunsOnce(cfg: Config, gen: nat -> Generated, deliver: nat -> Delivery, k: nat)
    ensures var r := MainResult(cfg, gen, deliver, k, true);
      && r.next == k + 1
      && Generations(r.events) == 1
      && r.events[0] == GenerateCalled(k)
      && (PassesGuard(gen(k)) ==> r.events == [GenerateCalled(k), PollPosted(RequestFor(cfg, gen(k), deliver(k)))])
      && (PassesGuard(gen(k)) ==> Posts(r.events) == [RequestFor(cfg, gen(k), deliver(k))])
      && (!PassesGuard(gen(k)) ==> r.events == [GenerateCalled(k)])
  {
    var r := MainResult(cfg, gen, deliver, k, true);
    var t := TryResult(cfg, gen, deliver, k, true);
    GenerationCases(gen(k));
    if PassesGuard(gen(k)) {
      var g := gen(k);
      var p := CreateTelegramPoll(cfg, g.question.value, g.options.value, g.correctOptionId, deliver(k));
      assert t.events == [GenerateCalled(k), PollPosted(p.request)];
      assert t.events[1..] == [PollPosted(p.request)] && t.events[1..][1..] == [];
      assert Generations(t.events[1..]) == 0;
    } else {
      assert t.events == [GenerateCalled(k)] && t.events[1..] == [];
    }
    assert r.events == t.events;
  }

  /** Per trigger the generator is called once or twice, never more, and the trace shows each call. */
  lemma GeneratorAtMostTwice(cfg: Config, gen: nat -> Generated, deliver: nat -> Delivery, k: nat)
    ensures var r := MainResult(cfg, gen, deliver, k, false);
      && k + 1 <= r.next <= k + 2
      && Generations(r.events) == r.next - k
  {
    var r := MainResult(cfg, gen, deliver, k, false);
    var t := TryResult(cfg, gen, deliver, k, false);
    GenerationCases(gen(k));
    if PassesGuard(gen(k)) {
      RetryFree(cfg, gen, deliver, k);
    } else {
      FailedFirstAttempt(cfg, gen, deliver, k);
      RetryRunsOnce(cfg, gen, deliver, k + 1);
      CountsAppend([GenerateCalled(k)], MainResult(cfg, gen, deliver, k + 1, true).events);
    }
  }

  /**
   * A first generation that passes the guard is published exactly once, with
   * exactly its values, and the generator is not called again.
   */
  lemma RetryFree(cfg: Config, gen: nat -> Generated, deliver: nat -> Delivery, k: nat)
    requires PassesGuard(gen(k))
    ensures var g := gen(k);
      var r := MainResult(cfg, gen, deliver, k, false);
      && r.next == k + 1
      && r.events == [ GenerateCalled(k),
                       PollPosted(PollRequest(PollUrl(cfg.botToken),
                                              PollForm(cfg.chatId, g.question.value, g.options.value, g.correctOptionId),
                                              deliver(k))) ]
      && r.events[1].request == RequestFor(cfg, g, deliver(k))
      && Generations(r.events) == 1
      && Posts(r.events) == [r.events[1].request]
  {
    var r := MainResult(cfg, gen, deliver, k, false);
    assert r.events[1..] == [r.events[1]];
    assert r.events[1..][1..] == [];
    assert Generations(r.events[1..]) == 0;
  }

  /**
   * A first generation that is empty or throws is followed by exactly one retry
   * (`main(true)` at generator call k + 1), and the first pass publishes nothing.
   */
  lemma FailedFirstAttempt(cfg: Config, gen: nat -> Generated, deliver: nat -> Delivery, k: nat)
    requires Empty(gen(k)) || Throws(gen(k))
    ensures var r := MainResult(cfg, gen, deliver, k, false);
      var retry := MainResult(cfg, gen, deliver, k + 1, true);
      && r.events == [GenerateCalled(k)] + retry.events
      && r.next == retry.next == k + 2
  {
    var t := TryResult(cfg, gen, deliver, k, false);
    var retry := MainResult(cfg, gen, deliver, k + 1, true);
    RetryRunsOnce(cfg, gen, deliver, k + 1);
    if Empty(gen(k)) {
      assert t == Run([GenerateCalled(k)] + retry.events, retry.next, Normal);
    } else {
      assert t.completion.Threw? && t.events == [GenerateCalled(k)] && t.next == k + 1;
    }
  }

  /**
   * A first generation that fails followed by one that passes the guard: the
   * retry publishes exactly once, with exactly the values of the second
   * generation, and nothing was published before it.
   */
  lemma SecondAttemptPublishes(cfg: Config, gen: nat -> Generated, deliver: nat -> Delivery, k: nat)
    requires !PassesGuard(gen(k)) && PassesGuard(gen(k + 1))
    ensures var r := MainResult(cfg, gen, deliver, k, false);
      && r.events == [GenerateCalled(k), GenerateCalled(k + 1), PollPosted(RequestFor(cfg, gen(k + 1), deliver(k + 1)))]
      && Posts(r.events) == [RequestFor(cfg, gen(k + 1), deliver(k + 1))]
      && r.next == k + 2
  {
    GenerationCases(gen(k));
    FailedFirstAttempt(cfg, gen, deliver, k);
    RetryRunsOnce(cfg, gen, deliver, k + 1);
    var retry := MainResult(cfg, gen, deliver, k + 1, true);
    CountsAppend([GenerateCalled(k)], retry.events);
    assert Posts([GenerateCalled(k)]) == [];
  }

  /** When both attempts fail, by throwing or by an empty result, nothing is published and `main` still returns normally. */
  lemma BothAttemptsFail(cfg: Config, gen: nat -> Generated, deliver: nat -> Delivery, k: nat)
    requires !PassesGuard(gen(k)) && !PassesGuard(gen(k + 1))
    ensures var r := MainResult(cfg, gen, deliver, k, false);
      && r.events == [GenerateCalled(k), GenerateCalled(k + 1)]
      && Posts(r.events) == []
      && r.completion == Normal
  {
    GenerationCases(gen(k));
    FailedFirstAttempt(cfg, gen, deliver, k);
    RetryRunsOnce(cfg, gen, deliver, k + 1);
    var r := MainResult(cfg, gen, deliver, k, false);
    assert r.events[1..] == [GenerateCalled(k + 1)];
  }

  /** At most one poll is published per trigger, and one is exactly when one of the two generations passes the guard. */
  lemma PublishAtMostOnce(cfg: Config, gen: nat -> Generated, deliver: nat -> Delivery, k: nat)
    ensures var r := MainResult(cfg, gen, deliver, k, false);
      && |Posts(r.events)| <= 1
      && (|Posts(r.events)| == 1 <==> PassesGuard(gen(k)) || PassesGuard(gen(k + 1)))
  {
    GenerationCases(gen(k));
    if PassesGuard(gen(k)) {
      RetryFree(cfg, gen, deliver, k);
    } else {
      FailedFirstAttempt(cfg, gen, deliver, k);
      RetryRunsOnce(cfg, gen, deliver, k + 1);
      var retry := MainResult(cfg, gen, deliver, k + 1, true);
      CountsAppend([GenerateCalled(k)], retry.events);
      assert Posts([GenerateCalled(k)]) == [];
      if !PassesGuard(gen(k + 1)) {
        assert retry.events[1..] == [];
      }
    }
  }

  /**
   * A failed publish never causes a retry: how the polling service answers does
   * not change which generator calls are made, what is posted, or how `main` ends.
   */
  lemma DeliveryIgnored(cfg: Config, gen: nat -> Generated, d1: nat -> Delivery, d2: nat -> Delivery, k: nat)
    ensures var r1 := MainResult(cfg, gen, d1, k, false);
      var r2 := MainResult(cfg, gen, d2, k, false);
      && r1.next == r2.next
      && Generations(r1.events) == Generations(r2.events)
      && |Posts(r1.events)| == |Posts(r2.events)|
      && r1.completion == r2.completion
  {
    GeneratorAtMostTwice(cfg, gen, d1, k);
    GeneratorAtMostTwice(cfg, gen, d2, k);
    PublishAtMostOnce(cfg, gen, d1, k);
    PublishAtMostOnce(cfg, gen, d2, k);
    GenerationCases(gen(k));
    if !PassesGuard(gen(k)) {
      FailedFirstAttempt(cfg, gen, d1, k);
      FailedFirstAttempt(cfg, gen, d2, k);
    } else {
      RetryFree(cfg, gen, d1, k);
      RetryFree(cfg, gen, d2, k);
    }
  }

  /**
   * The guard does not range-check `correctOptionId`: a valid first generation
   * whose index lies outside its options is published with that index as it is.
   */
  lemma UncheckedCorrectOptionId(cfg: Config, gen: nat -> Generated, deliver: nat -> Delivery, k: nat)
    requires PassesGuard(gen(k))
    requires gen(k).correctOptionId < 0 || gen(k).correctOptionId >= |gen(k).options.value|
    ensures var r := MainResult(cfg, gen, deliver, k, false);
      && |Posts(r.events)| == 1
      && Lookup(Posts(r.events)[0].form, "correct_option_id") == Some(NumberValue(gen(k).correctOptionId))
  {
    var g := gen(k);
    RetryFree(cfg, gen, deliver, k);
    PollFormShape(cfg.chatId, g.question.value, g.options.value, g.correctOptionId);
  }

  /**
   * The orchestration as the program runs it: a counter of generator calls, a
   * trace of effects, and `main` as a method that calls itself once.
   */
  class Bot {
    const cfg: Config
    const generator: nat -> Generated
    const transport: nat -> Delivery
    var calls: nat
    ghost var trace: seq<Event>

    constructor (cfg: Config, generator: nat -> Generated, transport: nat -> Delivery)
      ensures this.cfg == cfg && this.generator == generator && this.transport == transport
      ensures calls == 0 && trace == []
    {
      this.cfg := cfg;
      this.generator := generator;
      this.transport := transport;
      calls := 0;
      trace := [];
    }

    /** `generateQuestionAndOptions`: one call of the generation service. */
    method GenerateQuestionAndOptions() returns (g: Generated)
      modifies this
      ensures g == generator(old(calls))
      ensures calls == old(calls) + 1
      ensures trace == old(trace) + [GenerateCalled(old(calls))]
    {
      g := generator(calls);
      trace := trace + [GenerateCalled(calls)];
      calls := calls + 1;
    }

    /** `createTelegramPoll`: build the form, post it, and catch whatever the request does. */
    method CreateTelegramPoll(question: string, options: seq<string>, correctOptionId: int, attempt: nat)
      returns (c: Completion)
      modifies this
      ensures calls == old(calls)
      ensures var p := TelegramPoll.CreateTelegramPoll(cfg, question, options, correctOptionId, transport(attempt));
        trace == old(trace) + [PollPosted(p.request)] && c == p.completion
    {
      var url := PollUrl(cfg.botToken);
      var form := BuildPollForm(cfg.chatId, question, options, correctOptionId);
      var delivery := transport(attempt);
      trace := trace + [PollPosted(PollRequest(url, form.entries, delivery))];
      match delivery
      case Delivered => c := Normal;
      case RequestFailed => c := Normal;
    }

    /** The `try` block of `main`. */
    method TryBody(retry: bool) returns (c: Completion)
      modifies this
      decreases if retry then 0 else 1, 0
      ensures var r := TryResult(cfg, generator, transport, old(calls), retry);
        trace == old(trace) + r.events && calls == r.next && c == r.completion
    {
      var attempt := calls;
      var g := GenerateQuestionAndOptions();
      match g
      case Failed =>
        c := Threw(GenerationError);
      case Ok(q, o, id) =>
        var verdict := Guard(q, o, id);
        match verdict
        case Publish(question, options, correctOptionId) =>
          c := CreateTelegramPoll(question, options, correctOptionId, attempt);
        case NothingGenerated =>
          if !retry {
            c := RunMain(true);
          } else {
            c := Normal;
          }
        case ReadsUndefinedLength =>
          c := Threw(TypeError);
    }

    /** `main(retry)`: the try block, and a catch that retries once. */
    method RunMain(retry: bool) returns (c: Completion)
      modifies this
      decreases if retry then 0 else 1, 1
      ensures var r := MainResult(cfg, generator, transport, old(calls), retry);
        trace == old(trace) + r.events && calls == r.next && c == r.completion
    {
      c := TryBody(retry);
      if c.Threw? {
        if !retry {
          c := RunMain(true);
        } else {
          c := Normal;
        }
      }
    }
  }
}
