/** What a request does to the health of the upstreams it touches, and what it never does. */
module Failover {
  import opened Config
  import opened Json
  import opened Lines
  import opened Events
  import opened HealthSpec
  import opened HealthInvariant
  import opened HealthRuntime
  import opened Router
  import opened Orchestrator
  import OpenAI = OpenAIStream
  import Anthropic = AnthropicStream

  ghost predicate Distinct(plan: seq<string>) {
    forall i, j :: 0 <= i < j < |plan| ==> plan[i] != plan[j]
  }

  /** Feedback changes one upstream only, and the change depends on that upstream only. */
  lemma FeedbackIsLocal(p: Policy, v: View, w: View, upstream: string, r: AttemptResult, reply: Reply)
    ensures Feedback(p, v, upstream, r, reply).Keys == v.Keys
    ensures forall name :: name in v && name != upstream ==> Feedback(p, v, upstream, r, reply)[name] == v[name]
    ensures upstream in v && upstream in w && v[upstream] == w[upstream] ==>
              Feedback(p, v, upstream, r, reply)[upstream] == Feedback(p, w, upstream, r, reply)[upstream]
  {
  }

  lemma FeedbackKeepsKeys(p: Policy, v: View, upstream: string, r: AttemptResult, reply: Reply)
    ensures Feedback(p, v, upstream, r, reply).Keys == v.Keys
  {
  }

  lemma {:induction false} KeysStay(
      p: Policy, adapters: Adapters, registry: map<string, ProviderConfig>, kind: EndpointKind,
      v: View, plan: seq<string>, env: Environment, n: nat)
    requires n <= |plan|
    ensures AfterAttempts(p, adapters, registry, kind, v, plan, env, n).Keys == v.Keys
  {
    if n != 0 {
      KeysStay(p, adapters, registry, kind, v, plan, env, n - 1);
      FeedbackKeepsKeys(p, AfterAttempts(p, adapters, registry, kind, v, plan, env, n - 1), plan[n - 1],
                        ResultAt(adapters, registry, kind, plan, env, n - 1), env(n - 1));
    }
  }

  /** The attempts before n leave alone what they do not name. */
  lemma {:induction false} UntouchedUpstreams(
      p: Policy, adapters: Adapters, registry: map<string, ProviderConfig>, kind: EndpointKind,
      v: View, plan: seq<string>, env: Environment, n: nat, name: string)
    requires n <= |plan| && forall i :: 0 <= i < n ==> plan[i] != name
    ensures var after := AfterAttempts(p, adapters, registry, kind, v, plan, env, n);
            after.Keys == v.Keys && (name in v ==> after[name] == v[name])
  {
    if n != 0 {
      UntouchedUpstreams(p, adapters, registry, kind, v, plan, env, n - 1, name);
      FeedbackIsLocal(p, AfterAttempts(p, adapters, registry, kind, v, plan, env, n - 1), v, plan[n - 1],
                      ResultAt(adapters, registry, kind, plan, env, n - 1), env(n - 1));
    }
  }

  /** With distinct candidates, each attempted upstream gets the effect of its own attempt. */
  lemma {:induction false} AttemptsTouchTheirUpstreams(
      p: Policy, adapters: Adapters, registry: map<string, ProviderConfig>, kind: EndpointKind,
      v: View, plan: seq<string>, env: Environment, n: nat, i: nat)
    requires i < n <= |plan| && Distinct(plan) && plan[i] in v
    ensures var after := AfterAttempts(p, adapters, registry, kind, v, plan, env, n);
            && plan[i] in after
            && after[plan[i]] == Feedback(p, v, plan[i], ResultAt(adapters, registry, kind, plan, env, i), env(i))[plan[i]]
    decreases n
  {
    var before := AfterAttempts(p, adapters, registry, kind, v, plan, env, n - 1);
    FeedbackIsLocal(p, before, v, plan[n - 1], ResultAt(adapters, registry, kind, plan, env, n - 1), env(n - 1));
    if i == n - 1 {
      UntouchedUpstreams(p, adapters, registry, kind, v, plan, env, i, plan[i]);
    } else {
      AttemptsTouchTheirUpstreams(p, adapters, registry, kind, v, plan, env, n - 1, i);
    }
  }

  /** The state an attempt on a serving upstream leaves it in, when its outcome is accepted. */
  ghost predicate ExactFeedback(p: Policy, before: Upstream, after: Upstream, r: AttemptResult, at: nat, summary: string) {
    match r
    case Done(_) =>
      after.state == Healthy && after.consecutiveFailures == 0 && after.lastError == "" && after.lastRequestEventAt == at
    case ExecutionFailed(retryable, committed) =>
      && after.lastRequestEventAt == at && after.lastError == summary
      && (if retryable && !committed then
            && after.consecutiveFailures == before.consecutiveFailures + 1
            && (if before.consecutiveFailures + 1 < p.failureThreshold then after.state == Healthy
                else after.state == Open && after.openWindowUntil == at + p.openInterval)
          else after.state == Healthy && after.consecutiveFailures == before.consecutiveFailures)
    case Refused => after == before
  }

  lemma FeedbackIsExact(p: Policy, v: View, name: string, r: AttemptResult, reply: Reply)
    requires name in v && Inv(p, v[name]) && v[name].state == Healthy && v[name].lastAppliedEventAt < reply.at
    ensures ExactFeedback(p, v[name], Feedback(p, v, name, r, reply)[name], r, reply.at, reply.summary)
  {
  }

  /** The feedback of a request is exact. Of the n attempts made, each but the last failed retryably before
      output; every attempted upstream gets the effect of its own outcome and every other one keeps its state. */
  lemma RequestFeedbackIsExact(
      p: Policy, adapters: Adapters, registry: map<string, ProviderConfig>, kind: EndpointKind,
      v: View, plan: seq<string>, env: Environment, n: nat)
    requires Distinct(plan) && StopsAt(adapters, registry, kind, plan, env, n)
    requires forall i :: 0 <= i < |plan| ==>
               plan[i] in v && Inv(p, v[plan[i]]) && v[plan[i]].state == Healthy && v[plan[i]].lastAppliedEventAt < env(i).at
    ensures var after := AfterAttempts(p, adapters, registry, kind, v, plan, env, n);
            && after.Keys == v.Keys
            && (forall i :: 0 <= i < n ==>
                  ExactFeedback(p, v[plan[i]], after[plan[i]], ResultAt(adapters, registry, kind, plan, env, i), env(i).at, env(i).summary))
            && (forall i :: 0 <= i < n - 1 ==> ResultAt(adapters, registry, kind, plan, env, i) == ExecutionFailed(true, false))
            && (forall name :: name in v && name !in plan[..n] ==> after[name] == v[name])
  {
    KeysStay(p, adapters, registry, kind, v, plan, env, n);
    forall name | name !in plan[..n]
      ensures name in v ==> AfterAttempts(p, adapters, registry, kind, v, plan, env, n)[name] == v[name]
    {
      forall i | 0 <= i < n
        ensures plan[i] != name
      {
        assert plan[..n][i] == plan[i];
      }
      UntouchedUpstreams(p, adapters, registry, kind, v, plan, env, n, name);
    }
    forall i | 0 <= i < n
      ensures ExactFeedback(p, v[plan[i]], AfterAttempts(p, adapters, registry, kind, v, plan, env, n)[plan[i]],
                            ResultAt(adapters, registry, kind, plan, env, i), env(i).at, env(i).summary)
    {
      AttemptsTouchTheirUpstreams(p, adapters, registry, kind, v, plan, env, n, i);
      FeedbackIsExact(p, v, plan[i], ResultAt(adapters, registry, kind, plan, env, i), env(i));
    }
    forall i | 0 <= i < n - 1
      ensures ResultAt(adapters, registry, kind, plan, env, i) == ExecutionFailed(true, false)
    {
      assert !Terminal(ResultAt(adapters, registry, kind, plan, env, i));
    }
  }

  // No failover after output

  /** The events the first i lines of an answer decode to, if they decode. */
  function PrefixEvents(codec: Codec, anthropic: bool, kind: EndpointKind, lines: seq<string>): Option<seq<Events.Event>> {
    if anthropic then
      match Anthropic.Decode(codec, kind, Anthropic.START, lines)
      case Running(d) => Some(d.events)
      case Failed(_) => None
    else
      match OpenAI.DecodeLines(codec, kind, lines)
      case Decoded(events) => Some(events)
      case Broken(_) => None
  }

  /** An answer breaks after i lines: they decode, and then a line does not parse or the reader fails. */
  ghost predicate BreaksAfter(codec: Codec, anthropic: bool, kind: EndpointKind, body: string, readFails: bool, i: nat) {
    var lines := ScanLines(body);
    && i <= |lines|
    && PrefixEvents(codec, anthropic, kind, lines[..i]).Some?
    && (if i == |lines| then readFails else PrefixEvents(codec, anthropic, kind, lines[..i + 1]).None?)
  }

  lemma {:induction false} AnthropicFailureStays(codec: Codec, kind: EndpointKind, lines: seq<string>, i: nat)
    requires i < |lines|
    requires Anthropic.Decode(codec, kind, Anthropic.START, lines[..i]).Running?
    requires Anthropic.Decode(codec, kind, Anthropic.START, lines[..i + 1]).Failed?
    ensures Anthropic.Decode(codec, kind, Anthropic.START, lines)
         == Anthropic.Failed(Anthropic.Decode(codec, kind, Anthropic.START, lines[..i]).decoder.events != [])
  {
    assert lines[..i + 1][..i] == lines[..i];
    Anthropic.FailedStaysFailed(codec, kind, lines, i + 1);
  }

  lemma OpenAIFailureStays(codec: Codec, kind: EndpointKind, lines: seq<string>, i: nat)
    requires i < |lines|
    requires OpenAI.DecodeLines(codec, kind, lines[..i]).Decoded?
    requires OpenAI.DecodeLines(codec, kind, lines[..i + 1]).Broken?
    ensures OpenAI.DecodeLines(codec, kind, lines)
         == Broken(OpenAI.DecodeLines(codec, kind, lines[..i]).events != [])
  {
    assert lines[..i + 1][..i] == lines[..i];
    assert lines[..i + 1] + lines[i + 1..] == lines;
    OpenAI.DecodeConcat(codec, kind, lines[..i + 1], lines[i + 1..]);
  }

  /** A broken answer is a retryable failure, committed exactly when the decoded prefix has an event. */
  lemma BrokenAnswer(codec: Codec, anthropic: bool, kind: EndpointKind, status: int, body: string, readFails: bool, i: nat)
    requires status < 400 && BreaksAfter(codec, anthropic, kind, body, readFails, i)
    ensures CallAdapter(codec, anthropic, kind, Answered(status, body, readFails))
         == AdapterFailed(Execution(true, PrefixEvents(codec, anthropic, kind, ScanLines(body)[..i]).value != []))
  {
    var lines := ScanLines(body);
    if i == |lines| {
      assert lines[..i] == lines;
    } else if anthropic {
      AnthropicFailureStays(codec, kind, lines, i);
    } else {
      OpenAIFailureStays(codec, kind, lines, i);
    }
  }

  /** An answer either decodes to the end or breaks somewhere. */
  lemma BreaksSomewhere(codec: Codec, anthropic: bool, kind: EndpointKind, body: string, readFails: bool) returns (i: nat)
    requires readFails || PrefixEvents(codec, anthropic, kind, ScanLines(body)).None?
    ensures BreaksAfter(codec, anthropic, kind, body, readFails, i)
  {
    var lines := ScanLines(body);
    if PrefixEvents(codec, anthropic, kind, lines).Some? {
      i := |lines|;
      assert lines[..i] == lines;
    } else if anthropic {
      var before;
      i, before := Anthropic.CommittedIffOutput(codec, kind, lines);
      Anthropic.DecodeNext(codec, kind, lines, i);
    } else {
      i := OpenAI.CommittedIffOutput(codec, kind, lines);
      OpenAI.DecodeNext(codec, kind, lines, i);
    }
  }

  /** An answer with a good status ends in events exactly when it can be read to the end and decodes. */
  lemma AnswerOutcome(codec: Codec, anthropic: bool, kind: EndpointKind, status: int, body: string, readFails: bool)
    requires status < 400
    ensures var whole := PrefixEvents(codec, anthropic, kind, ScanLines(body));
            var result := CallAdapter(codec, anthropic, kind, Answered(status, body, readFails));
            && (!readFails && whole.Some? ==> result == Streamed(whole.value))
            && (readFails || whole.None? ==>
                  exists i: nat :: BreaksAfter(codec, anthropic, kind, body, readFails, i) &&
                              result == AdapterFailed(Execution(true, PrefixEvents(codec, anthropic, kind, ScanLines(body)[..i]).value != [])))
  {
    if readFails || PrefixEvents(codec, anthropic, kind, ScanLines(body)).None? {
      var i := BreaksSomewhere(codec, anthropic, kind, body, readFails);
      BrokenAnswer(codec, anthropic, kind, status, body, readFails, i);
    }
  }

  predicate Known(registry: map<string, ProviderConfig>, upstream: string) {
    upstream in registry && registry[upstream].provider in {"openai", "anthropic"}
  }

  /** Statuses that say the upstream is overloaded or unreachable for now. */
  predicate Overloaded(status: int) {
    status == 429 || status == 502 || status == 503 || status == 504
  }

  /** What an attempt comes to, for every reply. */
  lemma AttemptOutcome(codec: Codec, registry: map<string, ProviderConfig>, kind: EndpointKind, upstream: string, reply: HttpReply)
    ensures var r := Attempt(StreamAdapters(codec), registry, kind, upstream, reply);
            && (r == Refused <==> !Known(registry, upstream))
            && (Known(registry, upstream) ==>
                  var anthropic := registry[upstream].provider == "anthropic";
                  match reply
                  case RequestNotBuilt => r == ExecutionFailed(false, false)
                  case CredentialsMissing => r == ExecutionFailed(false, false)
                  case TransportFailed => r == ExecutionFailed(true, false)
                  case Answered(status, body, readFails) =>
                    if 400 <= status then r == ExecutionFailed(Overloaded(status), false)
                    else
                      var whole := PrefixEvents(codec, anthropic, kind, ScanLines(body));
                      if !readFails && whole.Some? then r == Done(whole.value)
                      else
                        exists i: nat :: BreaksAfter(codec, anthropic, kind, body, readFails, i) &&
                                    r == ExecutionFailed(true, PrefixEvents(codec, anthropic, kind, ScanLines(body)[..i]).value != []))
  {
    if Known(registry, upstream) && reply.Answered? && reply.status < 400 {
      AnswerOutcome(codec, registry[upstream].provider == "anthropic", kind, reply.status, reply.body, reply.readFails);
    }
  }

  /** Another upstream is tried exactly after a transport failure, an overloaded answer, or a stream that broke
      before it yielded an event. */
  lemma FailoverIff(codec: Codec, registry: map<string, ProviderConfig>, kind: EndpointKind, upstream: string, reply: HttpReply)
    ensures !Terminal(Attempt(StreamAdapters(codec), registry, kind, upstream, reply)) <==>
              && Known(registry, upstream)
              && (|| reply.TransportFailed?
                  || (reply.Answered? && 400 <= reply.status && Overloaded(reply.status))
                  || (reply.Answered? && reply.status < 400 &&
                      var anthropic := registry[upstream].provider == "anthropic";
                      exists i: nat :: BreaksAfter(codec, anthropic, kind, reply.body, reply.readFails, i) &&
                                  PrefixEvents(codec, anthropic, kind, ScanLines(reply.body)[..i]) == Some([])))
  {
    AttemptOutcome(codec, registry, kind, upstream, reply);
    if Known(registry, upstream) && reply.Answered? && reply.status < 400 {
      var anthropic := registry[upstream].provider == "anthropic";
      forall i: nat | BreaksAfter(codec, anthropic, kind, reply.body, reply.readFails, i)
        ensures Attempt(StreamAdapters(codec), registry, kind, upstream, reply)
             == ExecutionFailed(true, PrefixEvents(codec, anthropic, kind, ScanLines(reply.body)[..i]).value != [])
      {
        BrokenAnswer(codec, anthropic, kind, reply.status, reply.body, reply.readFails, i);
      }
    }
  }

  /** The attempt on upstream breaks after its stream already yielded an event. */
  ghost predicate BreaksAfterOutput(codec: Codec, registry: map<string, ProviderConfig>, kind: EndpointKind,
                                    upstream: string, reply: HttpReply, i: nat) {
    && upstream in registry && registry[upstream].provider in {"openai", "anthropic"}
    && reply.Answered? && reply.status < 400
    && var anthropic := registry[upstream].provider == "anthropic";
       && BreaksAfter(codec, anthropic, kind, reply.body, reply.readFails, i)
       && PrefixEvents(codec, anthropic, kind, ScanLines(reply.body)[..i]).value != []
  }

  lemma BrokenAttempt(codec: Codec, registry: map<string, ProviderConfig>, kind: EndpointKind,
                      upstream: string, reply: HttpReply, i: nat)
    requires BreaksAfterOutput(codec, registry, kind, upstream, reply, i)
    ensures Attempt(StreamAdapters(codec), registry, kind, upstream, reply) == ExecutionFailed(true, true)
  {
    BrokenAnswer(codec, registry[upstream].provider == "anthropic", kind, reply.status, reply.body, reply.readFails, i);
  }

  /** A committed failure ends the request and changes no upstream's health. */
  lemma CommittedFailureIsLast(
      p: Policy, adapters: Adapters, registry: map<string, ProviderConfig>, kind: EndpointKind,
      v: View, plan: seq<string>, env: Environment, n: nat, k: nat)
    requires StopsAt(adapters, registry, kind, plan, env, n) && k < n
    requires Attempt(adapters, registry, kind, plan[k], env(k).http) == ExecutionFailed(true, true)
    ensures k == n - 1 && RunResultOf(adapters, registry, kind, plan, env, n) == AttemptFailed(ExecutionFailed(true, true))
    ensures SameHealth(AfterAttempts(p, adapters, registry, kind, v, plan, env, k),
                       AfterAttempts(p, adapters, registry, kind, v, plan, env, n))
  {
    assert Terminal(ResultAt(adapters, registry, kind, plan, env, k));
    CommittedFailureKeepsHealth(p, AfterAttempts(p, adapters, registry, kind, v, plan, env, k), plan[k], env(k));
  }

  /** For any plan and any answer: if the stream of an attempt breaks after it already yielded an event, that
      attempt is the last one, and no upstream's eligibility or failure count changes from it. */
  lemma NoFailoverAfterOutput(
      p: Policy, codec: Codec, registry: map<string, ProviderConfig>, kind: EndpointKind,
      v: View, plan: seq<string>, env: Environment, n: nat, k: nat, i: nat)
    requires StopsAt(StreamAdapters(codec), registry, kind, plan, env, n) && k < n
    requires BreaksAfterOutput(codec, registry, kind, plan[k], env(k).http, i)
    ensures k == n - 1 && RunResultOf(StreamAdapters(codec), registry, kind, plan, env, n) == AttemptFailed(ExecutionFailed(true, true))
    ensures SameHealth(AfterAttempts(p, StreamAdapters(codec), registry, kind, v, plan, env, k),
                       AfterAttempts(p, StreamAdapters(codec), registry, kind, v, plan, env, n))
  {
    BrokenAttempt(codec, registry, kind, plan[k], env(k).http, i);
    CommittedFailureIsLast(p, StreamAdapters(codec), registry, kind, v, plan, env, n, k);
  }

  /** Every upstream is as eligible as before and has as many failures. */
  ghost predicate SameHealth(before: View, after: View) {
    && before.Keys == after.Keys
    && forall name :: name in before ==>
         && (EligibleIn(after, name) <==> EligibleIn(before, name))
         && after[name].consecutiveFailures == before[name].consecutiveFailures
  }

  lemma CommittedFailureKeepsHealth(p: Policy, v: View, upstream: string, reply: Reply)
    ensures SameHealth(v, Feedback(p, v, upstream, ExecutionFailed(true, true), reply))
  {
  }
}
