/**
 The administration console's side of the extended query protocol (PostgreSQL 16 documentation,
 section 55.2.3): Parse, Bind, Describe and Execute share one portal, and an error silences
 everything until Sync.
 */
module AdminConsole {

  import opened Common

  /** A computed reply.  `at` says which computation produced it: the console's data moves on. */
  datatype Reply = Reply(at: nat, hasRows: bool)

  /** What running the portal's command now would give. */
  datatype Answer = Rows | NoRows | Refused

  /** A client message, as far as decoding it went. */
  datatype Message =
    | Query
    | Parse(decoded: bool)
    | Bind(decoded: bool, formats: seq<int>)
    | Describe(statement: bool)
    | Execute
    | Close
    | Flush
    | Sync
    | Unknown

  /** What is written to the client.  Answers to Describe and Execute name the Parse they belong to. */
  datatype Out =
    | Error
    | Ready
    | Ack
    | Parameters
    | Shape(parse: nat, reply: Reply, formats: seq<int>)
    | Data(parse: nat, reply: Reply, formats: seq<int>)
    | SimpleReply

  /** The portal, how many Parse messages were taken and how many replies were computed. */
  datatype Portal = Portal(prepared: Option<Reply>, failed: bool, formats: seq<int>, parses: nat, computed: nat)

  /** The portal and everything written so far. */
  datatype State = State(portal: Portal, log: seq<Out>)

  const Init := State(Portal(None, false, [], 0, 0), [])

  /** prepare: the reply of the portal's statement, computed once. */
  function Prepared(p: Portal, a: Answer): Portal
    requires p.prepared.Some? || !a.Refused?
  {
    if p.prepared.Some? then p
    else p.(prepared := Some(Reply(p.computed, a.Rows?)), computed := p.computed + 1)
  }

  /** The message cannot be answered. */
  predicate Fails(p: Portal, m: Message, a: Answer) {
    match m
    case Parse(decoded) => !decoded
    case Bind(decoded, _) => !decoded
    case Describe(_) => p.prepared.None? && a.Refused?
    case Execute => p.prepared.None? && a.Refused?
    case Unknown => true
    case _ => false
  }

  function Moves(p: Portal, m: Message, a: Answer): Portal {
    if p.failed && !m.Sync? then p
    else if Fails(p, m, a) then p.(failed := true)
    else match m
      case Parse(_) => p.(prepared := None, formats := [], parses := p.parses + 1)
      case Bind(_, formats) => p.(formats := formats)
      case Describe(_) => Prepared(p, a)
      case Execute => Prepared(p, a)
      case Sync => p.(failed := false)
      case _ => p
  }

  function Emits(p: Portal, m: Message, a: Answer): seq<Out> {
    if p.failed && !m.Sync? then []
    else if Fails(p, m, a) then [Error]
    else match m
      case Query => if a.Refused? then [Error, SimpleReply, Ready] else [SimpleReply, Ready]
      case Parse(_) => [Ack]
      case Bind(_, _) => [Ack]
      case Describe(statement) =>
        var shape := Shape(p.parses, Prepared(p, a).prepared.value, p.formats);
        if statement then [Parameters, shape] else [shape]
      case Execute => [Data(p.parses, Prepared(p, a).prepared.value, p.formats)]
      case Close => [Ack]
      case Flush => []
      case Sync => [Ready]
      case Unknown => []
  }

  function Step(s: State, m: Message, a: Answer): State {
    State(Moves(s.portal, m, a), s.log + Emits(s.portal, m, a))
  }

  type Input = (Message, Answer)

  function Run(s: State, inputs: seq<Input>): State
    decreases |inputs|
  {
    if inputs == [] then s else Run(Step(s, inputs[0].0, inputs[0].1), inputs[1..])
  }

  // ---------------------------------------------------------------- the console's code

  class Console {
    var prepared: Option<Reply>
    var failed: bool
    var formats: seq<int>
    var parses: nat
    var computed: nat
    var log: seq<Out>

    function Now(): State
      reads this
    {
      State(Portal(prepared, failed, formats, parses, computed), log)
    }

    constructor ()
      ensures Now() == Init
    {
      prepared, failed, formats, parses, computed, log := None, false, [], 0, 0, [];
    }

    method FailExtended()
      modifies `failed, `log
      ensures failed && log == old(log) + [Error]
    {
      failed := true;
      log := log + [Error];
    }

    method Prepare(a: Answer) returns (ok: bool)
      modifies `prepared, `computed
      ensures ok <==> old(prepared).Some? || !a.Refused?
      ensures Now().portal == if ok then Prepared(old(Now().portal), a) else old(Now().portal)
    {
      if prepared.Some? {
        return true;
      }
      if a.Refused? {
        return false;
      }
      prepared := Some(Reply(computed, a.Rows?));
      computed := computed + 1;
      ok := true;
    }

    method DescribePortal(statement: bool, a: Answer)
      requires !failed
      modifies this
      ensures Now() == Step(old(Now()), Describe(statement), a)
    {
      var ok := Prepare(a);
      if !ok {
        FailExtended();
        return;
      }
      var shape := Shape(parses, prepared.value, formats);
      if statement {
        log := log + [Parameters, shape];
      } else {
        log := log + [shape];
      }
    }

    method ExecutePortal(a: Answer)
      requires !failed
      modifies this
      ensures Now() == Step(old(Now()), Execute, a)
    {
      var ok := Prepare(a);
      if !ok {
        FailExtended();
        return;
      }
      log := log + [Data(parses, prepared.value, formats)];
    }

    method SimpleQuery(a: Answer)
      modifies `log
      ensures log == old(log) + if a.Refused? then [Error, SimpleReply, Ready] else [SimpleReply, Ready]
    {
      if a.Refused? {
        log := log + [Error, SimpleReply, Ready];
      } else {
        log := log + [SimpleReply, Ready];
      }
    }

    /** dispatch */
    method Dispatch(m: Message, a: Answer)
      modifies this
      ensures Now() == Step(old(Now()), m, a)
    {
      if failed && !m.Sync? {
        return;
      }
      match m
      case Query => SimpleQuery(a);
      case Parse(decoded) =>
        if !decoded {
          FailExtended();
        } else {
          prepared, formats, parses := None, [], parses + 1;
          log := log + [Ack];
        }
      case Bind(decoded, wanted) =>
        if !decoded {
          FailExtended();
        } else {
          formats := wanted;
          log := log + [Ack];
        }
      case Describe(statement) => DescribePortal(statement, a);
      case Execute => ExecutePortal(a);
      case Close => log := log + [Ack];
      case Flush =>
      case Sync =>
        failed := false;
        log := log + [Ready];
      case Unknown => FailExtended();
    }
  }

  // ---------------------------------------------------------------- what the protocol promises

  lemma {:induction false} RunAppend(s: State, a: seq<Input>, b: seq<Input>)
    ensures Run(s, a + b) == Run(Run(s, a), b)
    decreases |a|
  {
    if a == [] {
      assert a + b == b;
    } else {
      assert (a + b)[1..] == a[1..] + b;
      RunAppend(Step(s, a[0].0, a[0].1), a[1..], b);
    }
  }

  lemma RunOneMore(s: State, inputs: seq<Input>, last: Input)
    ensures Run(s, inputs + [last]) == Step(Run(s, inputs), last.0, last.1)
  {
    RunAppend(s, inputs, [last]);
    assert [last][1..] == [];
    assert Run(Step(Run(s, inputs), last.0, last.1), []) == Step(Run(s, inputs), last.0, last.1);
  }

  /** Once an extended exchange has failed, nothing but a Sync is answered or has any effect. */
  lemma {:induction false} SilentUntilSync(s: State, inputs: seq<Input>)
    requires s.portal.failed && forall i :: 0 <= i < |inputs| ==> !inputs[i].0.Sync?
    ensures Run(s, inputs) == s
    decreases |inputs|
  {
    if inputs != [] {
      assert s.log + [] == s.log;
      SilentUntilSync(s, inputs[1..]);
    }
  }

  /**
   In every conversation: after an error outside a simple query, nothing is written until the
   next Sync.
   */
  lemma {:induction false} ErrorsSilence(before: seq<Input>, m: Message, a: Answer, between: seq<Input>)
    requires !m.Query? && forall i :: 0 <= i < |between| ==> !between[i].0.Sync?
    requires Error in Emits(Run(Init, before).portal, m, a)
    ensures Run(Init, before + [(m, a)] + between).log == Run(Init, before).log + [Error]
  {
    RunOneMore(Init, before, (m, a));
    RunAppend(Init, before + [(m, a)], between);
    SilentUntilSync(Step(Run(Init, before), m, a), between);
  }

  function CountReady(log: seq<Out>): nat {
    if log == [] then 0 else (if log[|log| - 1].Ready? then 1 else 0) + CountReady(log[..|log| - 1])
  }

  lemma {:induction false} CountReadyAppend(a: seq<Out>, b: seq<Out>)
    ensures CountReady(a + b) == CountReady(a) + CountReady(b)
    decreases |b|
  {
    if b == [] {
      assert a + b == a;
    } else {
      CountReadyAppend(a, b[..|b| - 1]);
      assert (a + b)[..|a + b| - 1] == a + b[..|b| - 1];
    }
  }

  /** The message is answered with ReadyForQuery: a Sync, or a simple query that is not skipped. */
  predicate OwesReady(p: Portal, m: Message) { m.Sync? || (m.Query? && !p.failed) }

  function ReadyOwed(s: State, inputs: seq<Input>): nat
    decreases |inputs|
  {
    if inputs == [] then 0
    else (if OwesReady(s.portal, inputs[0].0) then 1 else 0) + ReadyOwed(Step(s, inputs[0].0, inputs[0].1), inputs[1..])
  }

  /** Counting at most three. */
  lemma FewReady(log: seq<Out>)
    requires |log| <= 3
    ensures CountReady(log) == (if |log| > 0 && log[0].Ready? then 1 else 0) + (if |log| > 1 && log[1].Ready? then 1 else 0)
                             + (if |log| > 2 && log[2].Ready? then 1 else 0)
  {
    if |log| == 3 {
      assert log[..2][..1] == [log[0]] && log[..2][..1][..0] == [];
    } else if |log| == 2 {
      assert log[..1][..0] == [];
    }
  }

  lemma ReadyInStep(p: Portal, m: Message, a: Answer)
    ensures CountReady(Emits(p, m, a)) == if OwesReady(p, m) then 1 else 0
  {
    FewReady(Emits(p, m, a));
  }

  /**
   Every Sync is answered with exactly one ReadyForQuery, every simple query that is not skipped
   carries its own, and nothing else in a conversation brings one.
   */
  lemma {:induction false} OneReadyPerSync(s: State, inputs: seq<Input>)
    ensures CountReady(Run(s, inputs).log) == CountReady(s.log) + ReadyOwed(s, inputs)
    decreases |inputs|
  {
    if inputs != [] {
      CountReadyAppend(s.log, Emits(s.portal, inputs[0].0, inputs[0].1));
      ReadyInStep(s.portal, inputs[0].0, inputs[0].1);
      OneReadyPerSync(Step(s, inputs[0].0, inputs[0].1), inputs[1..]);
    }
  }

  predicate IsAnswer(o: Out) { o.Shape? || o.Data? }

  /** A reply the console has computed. */
  predicate Computed(p: Portal, r: Reply) { r.at < p.computed }

  /** The answers given since the latest Parse carry the portal's reply, which no earlier one does. */
  ghost predicate Current(s: State) {
    && (s.portal.prepared.Some? ==> Computed(s.portal, s.portal.prepared.value))
    && (forall o :: o in s.log && IsAnswer(o) ==>
          && Computed(s.portal, o.reply) && o.parse <= s.portal.parses
          && (s.portal.prepared.Some? ==> (o.parse == s.portal.parses <==> o.reply.at == s.portal.prepared.value.at))
          && (o.parse == s.portal.parses ==> s.portal.prepared == Some(o.reply)))
  }

  /** Two answers are to one Parse exactly when they show one computed reply. */
  ghost predicate Consistent(s: State) {
    forall o, q :: o in s.log && q in s.log && IsAnswer(o) && IsAnswer(q) ==>
      (o.parse == q.parse <==> o.reply.at == q.reply.at) && (o.parse == q.parse ==> o.reply == q.reply)
  }

  lemma NewAnswers(s: State, m: Message, a: Answer, o: Out)
    requires o in Step(s, m, a).log && IsAnswer(o) && o !in s.log
    ensures var t := Step(s, m, a); t.portal.prepared == Some(o.reply) && o.parse == t.portal.parses == s.portal.parses
  {
    assert o in Emits(s.portal, m, a);
  }

  lemma CurrentStep(s: State, m: Message, a: Answer)
    requires Current(s)
    ensures Current(Step(s, m, a))
  {
    var t := Step(s, m, a);
    forall o | o in t.log && IsAnswer(o) && o !in s.log
      ensures t.portal.prepared == Some(o.reply) && o.parse == t.portal.parses == s.portal.parses
    {
      NewAnswers(s, m, a, o);
    }
  }

  lemma ConsistentStep(s: State, m: Message, a: Answer)
    requires Current(s) && Consistent(s)
    ensures Consistent(Step(s, m, a))
  {
    var t := Step(s, m, a);
    CurrentStep(s, m, a);
    forall o | o in t.log && IsAnswer(o) && o !in s.log
      ensures t.portal.prepared == Some(o.reply) && o.parse == t.portal.parses == s.portal.parses
    {
      NewAnswers(s, m, a, o);
    }
  }

  /** Whatever the client sends, the answers to Describe and Execute for one Parse come from one computed reply of its own. */
  lemma {:induction false} OneReplyPerParse(s: State, inputs: seq<Input>)
    requires Current(s) && Consistent(s)
    ensures Current(Run(s, inputs)) && Consistent(Run(s, inputs))
    decreases |inputs|
  {
    if inputs != [] {
      CurrentStep(s, inputs[0].0, inputs[0].1);
      ConsistentStep(s, inputs[0].0, inputs[0].1);
      OneReplyPerParse(Step(s, inputs[0].0, inputs[0].1), inputs[1..]);
    }
  }

  /** In every conversation, two answers are to one Parse exactly when they show the same computed reply. */
  lemma AnswersAgree(inputs: seq<Input>, o: Out, q: Out)
    requires o in Run(Init, inputs).log && q in Run(Init, inputs).log && IsAnswer(o) && IsAnswer(q)
    ensures o.parse == q.parse <==> o.reply == q.reply
  {
    OneReplyPerParse(Init, inputs);
  }

  /** Parse, Bind, Describe and Execute on a portal that has not failed, and what is written for them. */
  lemma Exchange(s: State, a: Answer, formats: seq<int>, ofStatement: bool) returns (t: State)
    requires !a.Refused? && !s.portal.failed
    ensures t == Step(Step(Step(Step(s, Parse(true), a), Bind(true, formats), a), Describe(ofStatement), a), Execute, a)
    ensures var reply, n := Reply(s.portal.computed, a.Rows?), s.portal.parses + 1;
      t.log == s.log + [Ack] + [Ack] + (if ofStatement then [Parameters, Shape(n, reply, formats)] else [Shape(n, reply, formats)])
               + [Data(n, reply, formats)]
  {
    var parsed := Step(s, Parse(true), a);
    var bound := Step(parsed, Bind(true, formats), a);
    var described := Step(bound, Describe(ofStatement), a);
    t := Step(described, Execute, a);
  }

  /**
   Whatever came before, a Sync makes the console whole again: it is answered, and the next Parse,
   Bind, Describe and Execute are answered in order, in the formats bound, from one reply computed
   then.
   */
  lemma SyncRestores(s: State, a: Answer, formats: seq<int>, ofStatement: bool) returns (t: State)
    requires !a.Refused?
    ensures var after := Step(s, Sync, a);
      && after.log == s.log + [Ready]
      && t == Step(Step(Step(Step(after, Parse(true), a), Bind(true, formats), a), Describe(ofStatement), a), Execute, a)
    ensures var reply, n := Reply(s.portal.computed, a.Rows?), s.portal.parses + 1;
      t.log == s.log + [Ready] + [Ack] + [Ack]
               + (if ofStatement then [Parameters, Shape(n, reply, formats)] else [Shape(n, reply, formats)])
               + [Data(n, reply, formats)]
  {
    t := Exchange(Step(s, Sync, a), a, formats, ofStatement);
  }
}
