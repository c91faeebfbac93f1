/** The Chain of Responsibility demo: middleware handlers linked by their successor.
    Handling a request writes a bracketed trace: the handler's start line, what it does
    (its own message, or its successor's whole trace), and its end line. */
module ChainOfResponsibility {
  import opened Wrappers

  datatype Role = admin | user
  datatype User = User(name: string, role: Role)
  /** The resource may be null. */
  datatype Request = Request(resource: Option<string>)

  /** A handler and the successor it was constructed with. */
  datatype Middleware =
    | Authorization(Next: Option<Middleware>)
    | EndpointResolver(Next: Option<Middleware>)
  {
    /** The handler's class name, used in its start and end lines. */
    function TypeName(): string
    {
      match this
      case Authorization(_) => "Authorization"
      case EndpointResolver(_) => "EndpointResolver"
    }
  }

  /** One line of console output. */
  datatype Line = Start(handler: string) | Say(text: string) | End(handler: string)

  const NotAdmin := "user role is not 'admin'"
  const NotFound := "404 NotFound"
  const AdminPanel := "admin-panel"

  /** A start or end line is the handler's name followed by " start" or " end". */
  function Text(l: Line): (r: string)
    ensures !l.Say? ==> l.handler <= r
    ensures l.Start? ==> r[|l.handler|..] == " start"
    ensures l.End? ==> r[|l.handler|..] == " end"
    ensures l.Say? ==> r == l.text
  {
    match l
    case Start(h) => h + " start"
    case Say(t) => t
    case End(h) => h + " end"
  }

  function Render(trace: seq<Line>): (r: seq<string>)
    ensures |r| == |trace|
    ensures forall i :: 0 <= i < |trace| ==> r[i] == Text(trace[i])
  {
    if trace == [] then [] else [Text(trace[0])] + Render(trace[1..])
  }

  // ---------------------------------------------------------------- nesting

  /** Start lines minus end lines. */
  function Depth(trace: seq<Line>): int
  {
    if trace == [] then 0
    else Depth(trace[..|trace| - 1]) + match trace[|trace| - 1] {
      case Start(_) => 1
      case Say(_) => 0
      case End(_) => -1
    }
  }

  lemma {:induction false} DepthAppend(a: seq<Line>, b: seq<Line>)
    ensures Depth(a + b) == Depth(a) + Depth(b)
    decreases |b|
  {
    if b == [] {
      assert a + b == a;
    } else {
      assert (a + b)[..|a + b| - 1] == a + b[..|b| - 1];
      DepthAppend(a, b[..|b| - 1]);
    }
  }

  /** Every start has its end after it: no prefix closes more than it opened. */
  ghost predicate Balanced(trace: seq<Line>)
  {
    Depth(trace) == 0 && forall k :: 0 <= k <= |trace| ==> Depth(trace[..k]) >= 0
  }

  /** One block: its first line opens what only its last line closes, so every line in
      between lies strictly inside it. */
  ghost predicate Enclosed(trace: seq<Line>)
  {
    |trace| >= 2 && Depth(trace) == 0 && forall k :: 0 < k < |trace| ==> Depth(trace[..k]) > 0
  }

  lemma EnclosedIsBalanced(trace: seq<Line>)
    requires Enclosed(trace)
    ensures Balanced(trace)
  {
    assert trace[..|trace|] == trace;
  }

  /** A start line, a balanced body and an end line make one block. */
  lemma Wrap(s: Line, body: seq<Line>, e: Line)
    requires s.Start? && e.End? && Balanced(body)
    ensures Enclosed([s] + body + [e])
  {
    var t := [s] + body + [e];
    DepthAppend([s] + body, [e]);
    DepthAppend([s], body);
    assert Depth([s]) == 1 by {
      assert [s][..0] == [];
    }
    assert Depth([e]) == -1 by {
      assert [e][..0] == [];
    }
    forall k | 0 < k < |t|
      ensures Depth(t[..k]) > 0
    {
      assert t[..k] == [s] + body[..k - 1];
      DepthAppend([s], body[..k - 1]);
    }
  }

  // ---------------------------------------------------------------- handling

  /** `Handle`: the start line, the handler's own work, the end line. */
  function Handle(m: Middleware, u: User, r: Request): (trace: seq<Line>)
    ensures Enclosed(trace)
    ensures trace[0] == Start(m.TypeName()) && trace[|trace| - 1] == End(m.TypeName())
    decreases m, 2
  {
    var body := Run(m, u, r);
    Wrap(Start(m.TypeName()), body, End(m.TypeName()));
    [Start(m.TypeName())] + body + [End(m.TypeName())]
  }

  /** What each handler does between its start and end lines. */
  function Run(m: Middleware, u: User, r: Request): (trace: seq<Line>)
    ensures Balanced(trace)
    decreases m, 1
  {
    match m
    case Authorization(_) =>
      if u.role == admin then PassToNext(m, u, r) else [Say(NotAdmin)]
    case EndpointResolver(_) =>
      if r.resource.None? || r.resource.value != AdminPanel then [Say(NotFound)]
      else PassToNext(m, u, r)
  }

  /** Hands the request to the successor, if there is one. */
  function PassToNext(m: Middleware, u: User, r: Request): (trace: seq<Line>)
    ensures Balanced(trace)
    ensures m.Next.None? ==> trace == []
    ensures m.Next.Some? ==> Enclosed(trace) && trace[0] == Start(m.Next.value.TypeName())
    ensures m.Next.Some? ==> trace[|trace| - 1] == End(m.Next.value.TypeName())
    decreases m, 0
  {
    if m.Next.Some? then
      var t := Handle(m.Next.value, u, r);
      EnclosedIsBalanced(t);
      t
    else
      assert Depth([]) == 0;
      []
  }

  /** Authorization passes the request on exactly for admins; anyone else gets the refusal
      and the chain stops there, whatever follows and whatever the resource. */
  lemma AuthorizationGate(next: Option<Middleware>, u: User, r: Request)
    ensures u.role != admin ==>
      Handle(Authorization(next), u, r) == [Start("Authorization"), Say(NotAdmin), End("Authorization")]
    ensures u.role == admin ==>
      Handle(Authorization(next), u, r) ==
        [Start("Authorization")] + PassToNext(Authorization(next), u, r) + [End("Authorization")]
  {
  }

  /** EndpointResolver passes the request on exactly when the resource is "admin-panel";
      a null or any other resource gets "404 NotFound". */
  lemma EndpointGate(next: Option<Middleware>, u: User, r: Request)
    ensures r.resource == Some(AdminPanel) ==>
      Handle(EndpointResolver(next), u, r) ==
        [Start("EndpointResolver")] + PassToNext(EndpointResolver(next), u, r) + [End("EndpointResolver")]
    ensures r.resource != Some(AdminPanel) ==>
      Handle(EndpointResolver(next), u, r) ==
        [Start("EndpointResolver"), Say(NotFound), End("EndpointResolver")]
  {
  }

  /** Proof step for PipelineTrace: the demo handlers' start and end lines as text. */
  lemma DemoTexts()
    ensures Text(Start("Authorization")) == "Authorization start"
    ensures Text(End("Authorization")) == "Authorization end"
    ensures Text(Start("EndpointResolver")) == "EndpointResolver start"
    ensures Text(End("EndpointResolver")) == "EndpointResolver end"
  {
  }

  /** The demo's pipeline: Authorization, then EndpointResolver, then nothing. */
  const Pipeline := Authorization(Some(EndpointResolver(None)))

  /** The three possible outputs of the demo's pipeline. */
  lemma PipelineTrace(u: User, r: Request)
    ensures Render(Handle(Pipeline, u, r)) ==
      if u.role != admin then
        ["Authorization start", "user role is not 'admin'", "Authorization end"]
      else if r.resource != Some("admin-panel") then
        ["Authorization start", "EndpointResolver start", "404 NotFound",
         "EndpointResolver end", "Authorization end"]
      else
        ["Authorization start", "EndpointResolver start", "EndpointResolver end",
         "Authorization end"]
  {
    var t := Handle(Pipeline, u, r);
    DemoTexts();
    AuthorizationGate(Pipeline.Next, u, r);
    if u.role != admin {
      assert Render(t) == ["Authorization start", "user role is not 'admin'", "Authorization end"];
    } else {
      EndpointGate(None, u, r);
      var inner := Handle(EndpointResolver(None), u, r);
      assert t == [Start("Authorization")] + inner + [End("Authorization")];
      if r.resource != Some(AdminPanel) {
        assert t == [Start("Authorization"), Start("EndpointResolver"), Say(NotFound),
                     End("EndpointResolver"), End("Authorization")];
        assert Render(t) == ["Authorization start", "EndpointResolver start", "404 NotFound",
                             "EndpointResolver end", "Authorization end"];
      } else {
        assert t == [Start("Authorization"), Start("EndpointResolver"),
                     End("EndpointResolver"), End("Authorization")];
        assert Render(t) == ["Authorization start", "EndpointResolver start",
                             "EndpointResolver end", "Authorization end"];
      }
    }
  }

  /** A user-role request never reaches a handler after Authorization. */
  lemma UserNeverPassesAuthorization(next: Option<Middleware>, u: User, r: Request)
    requires u.role == user
    ensures forall l :: l in Handle(Authorization(next), u, r) ==>
      l in {Start("Authorization"), Say(NotAdmin), End("Authorization")}
  {
    AuthorizationGate(next, u, r);
  }
}
