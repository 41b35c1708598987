/** The client over whole runs: what it submits, and why replaying a hand is safe. */
module ClientRuns {
  import opened Types
  import opened Protocol
  import opened Clients

  // ---------------------------------------------------------------------------
  // Action safety
  // ---------------------------------------------------------------------------

  /** The prompts received, replayed ones included. */
  function Asked(xs: seq<Input>): seq<ActivePrompt> {
    if xs == [] then []
    else
      var seen := Asked(xs[..|xs| - 1]);
      match xs[|xs| - 1]
      case Got(Prompt(t, hand, seat, legal, _)) => seen + [ActivePrompt(t, hand, seat, legal)]
      case _ => seen
  }

  function Rejections(xs: seq<Input>): nat {
    if xs == [] then 0
    else Rejections(xs[..|xs| - 1]) + if xs[|xs| - 1].Got? && xs[|xs| - 1].message.ActionRejected? then 1 else 0
  }

  predicate Submits(e: Effect) { e.Send? && e.message.SubmitAction? }

  function Submissions(es: seq<Effect>): nat {
    if es == [] then 0 else Submissions(es[..|es| - 1]) + if Submits(es[|es| - 1]) then 1 else 0
  }

  lemma {:induction false} SubmissionsConcat(a: seq<Effect>, b: seq<Effect>)
    ensures Submissions(a + b) == Submissions(a) + Submissions(b)
  {
    if b == [] {
      assert a + b == a;
    } else {
      assert (a + b)[..|a + b| - 1] == a + b[..|b| - 1];
      SubmissionsConcat(a, b[..|b| - 1]);
    }
  }

  function Counts(es: seq<Effect>, k: nat): nat { if k < |es| && Submits(es[k]) then 1 else 0 }

  lemma FewSubmissions(es: seq<Effect>)
    requires |es| <= 2
    ensures Submissions(es) == Counts(es, 0) + Counts(es, 1)
  {
    if |es| == 2 {
      SubmissionsConcat([es[0]], [es[1]]);
      assert es == [es[0]] + [es[1]];
    }
    assert forall e :: Submissions([e]) == Submissions([e][..0]) + if Submits(e) then 1 else 0;
  }

  predicate Armed(c: Core) { c.view.hand.Some? && c.view.hand.value.awaiting }

  /** Waiting for the user exactly when legal actions are shown, and then the stored prompt's. */
  predicate Consistent(c: Core) {
    && (c.handshake.Some? ==> c.handshake.value.Handshake?)
    && (c.view.hand.Some? ==>
          && (c.view.hand.value.awaiting <==> c.view.hand.value.legal.Some?)
          && (c.view.hand.value.deadline.Some? ==> c.view.hand.value.awaiting))
    && (Armed(c) ==> c.prompt.Some? && c.view.hand.value.legal == Some(c.prompt.value.legal))
  }

  predicate Latest(c: Core, asked: seq<ActivePrompt>) {
    c.prompt.Some? ==> |asked| > 0 && asked[|asked| - 1] == c.prompt.value
  }

  function Owed(c: Core): nat { if Armed(c) then 1 else 0 }

  lemma IntentKeeps(c: Core, i: Intent)
    requires Consistent(c)
    ensures var r := OnIntent(c, i);
            && Consistent(r.core) && |r.effects| <= 2 && (r.core.prompt == c.prompt || r.core.prompt.None?)
            && Submissions(r.effects) + Owed(r.core) <= Owed(c)
            && (forall k :: 0 <= k < |r.effects| && Submits(r.effects[k]) ==>
                  && c.prompt.Some? && i.Submit? && c.prompt.value.legal.IsLegal(i.action)
                  && r.effects[k] == Send(SubmitAction(c.prompt.value.table, c.prompt.value.hand, i.action)))
  {
    FewSubmissions(OnIntent(c, i).effects);
  }

  lemma MessageKeeps(c: Core, m: ServerMessage)
    requires Consistent(c) && !m.ReplayEvents?
    ensures var r := OnPlain(c, m);
            && Consistent(r.core) && |r.effects| <= 1
            && Owed(r.core) <= Owed(c) + (if m.Prompt? || m.ActionRejected? then 1 else 0)
            && (if m.Prompt? then r.core.prompt == Some(ActivePrompt(m.table, m.hand, m.seat, m.legal))
                else r.core.prompt == c.prompt || r.core.prompt.None?)
            && (forall k :: 0 <= k < |r.effects| ==> !Submits(r.effects[k]))
  {
    hide Project;
    if m.TableEvent? { ProjectKeeps(c, m.event); }
  }

  /** One plain input: a submission uses up the armed prompt, only a prompt or a rejection arms. */
  lemma InputKeeps(c: Core, x: Input)
    requires Consistent(c) && (x.Got? ==> !x.message.ReplayEvents?)
    ensures var r := OnInput(c, x);
            && Consistent(r.core)
            && Submissions(r.effects) + Owed(r.core) <=
               Owed(c) + (if x.Got? && (x.message.Prompt? || x.message.ActionRejected?) then 1 else 0)
            && (if x.Got? && x.message.Prompt?
                then r.core.prompt == Some(ActivePrompt(x.message.table, x.message.hand, x.message.seat,
                  x.message.legal))
                else r.core.prompt == c.prompt || r.core.prompt.None?)
            && (forall k :: 0 <= k < |r.effects| && Submits(r.effects[k]) ==>
                  && c.prompt.Some? && x.Did? && x.intent.Submit? && c.prompt.value.legal.IsLegal(x.intent.action)
                  && r.effects[k] == Send(SubmitAction(c.prompt.value.table, c.prompt.value.hand, x.intent.action)))
  {
    hide OnPlain, OnIntent, Consistent, Owed, Submissions;
    match x
    case Did(i) => IntentKeeps(c, i);
    case Got(m) =>
      MessageKeeps(c, m);
      FewSubmissions(OnPlain(c, m).effects);
  }

  lemma ProjectKeeps(c: Core, e: Event)
    requires Consistent(c)
    ensures var r := Project(c, e); Consistent(r) && Owed(r) <= Owed(c) && (r.prompt == c.prompt || r.prompt.None?)
  {
  }

  lemma {:induction false} PlainRunSafe(xs: seq<Input>)
    requires Plain(xs)
    ensures var r := Play(Clients.Fresh(), xs);
            && Consistent(r.core) && Latest(r.core, Asked(xs))
            && Submissions(r.effects) + Owed(r.core) <= |Asked(xs)| + Rejections(xs)
  {
    if xs != [] {
      hide OnInput, Consistent, Owed;
      var n := |xs| - 1;
      PlainRunSafe(xs[..n]);
      var r := Play(Clients.Fresh(), xs[..n]);
      InputKeeps(r.core, xs[n]);
      SubmissionsConcat(r.effects, OnInput(r.core, xs[n]).effects);
    } else {
      assert Play(Clients.Fresh(), xs) == Reply(Clients.Fresh(), []);
    }
  }

  /** Over every run of intents, messages and replays: the view awaits an action exactly when it
      shows legal actions, and they are those of the stored prompt, which is the last prompt
      received; never more submissions than prompts and rejections. */
  lemma ClientSafe(xs: seq<Input>)
    ensures var r := Play(Clients.Fresh(), xs); var asked := Asked(Flattened(xs));
            && Consistent(r.core) && Latest(r.core, asked)
            && Submissions(r.effects) <= |asked| + Rejections(Flattened(xs))
  {
    PlayFlat(Clients.Fresh(), xs);
    FlattenedPlain(xs);
    PlainRunSafe(Flattened(xs));
  }

  /** Whatever comes next, a submission it causes is legal for the latest prompt and carries its
      table and hand. */
  lemma SubmissionsAnswerLatestPrompt(xs: seq<Input>, x: Input, k: nat)
    ensures var c := Play(Clients.Fresh(), xs).core; var es := OnInput(c, x).effects; var asked := Asked(Flattened(xs));
            k < |es| && Submits(es[k]) ==>
              && |asked| > 0
              && var p := asked[|asked| - 1]; var m := es[k].message;
                 m.table == p.table && m.hand == p.hand && p.legal.IsLegal(m.action)
  {
    hide Play, OnIntent, OnMessage, Consistent;
    ClientSafe(xs);
    var c := Play(Clients.Fresh(), xs).core;
    match x
    case Did(i) => IntentKeeps(c, i);
    case Got(m) => MessagesNeverSubmit(c, m);
  }

  // ---------------------------------------------------------------------------
  // Action liveness
  // ---------------------------------------------------------------------------

  /** The user is being asked prompt `p`. */
  predicate ArmedWith(c: Core, p: ActivePrompt) { Armed(c) && c.prompt == Some(p) }

  /** Inputs that leave an open prompt open: events inside the hand, news, rejections, other requests
      of the user, and attempts at an action that is not legal. */
  predicate LeavesOpen(x: Input, p: ActivePrompt) {
    match x
    case Got(TableEvent(_, e)) => !e.HandStarted? && !e.HandEnded?
    case Got(m) => m.TableState? || m.Heartbeat? || m.TableList? || m.ActionRejected?
    case Did(Submit(a)) => !p.legal.IsLegal(a)
    case Did(i) => i.WantTables? || i.Join? || i.Leave? || i.Beat?
  }

  lemma LeftOpen(c: Core, x: Input, p: ActivePrompt)
    requires ArmedWith(c, p) && LeavesOpen(x, p)
    ensures ArmedWith(OnInput(c, x).core, p)
  {
    hide UpdateBet, BetAfter, AddSeat;
  }

  lemma {:induction false} StaysOpen(c: Core, xs: seq<Input>, p: ActivePrompt)
    requires ArmedWith(c, p) && forall k :: 0 <= k < |xs| ==> LeavesOpen(xs[k], p)
    ensures ArmedWith(Play(c, xs).core, p)
  {
    hide OnInput, LeavesOpen, ArmedWith;
    if xs != [] {
      var n := |xs| - 1;
      StaysOpen(c, xs[..n], p);
      LeftOpen(Play(c, xs[..n]).core, xs[n], p);
    }
  }

  /** A prompt that arrives during a hand can be answered from then on, whatever the hand brings in
      between: a legal action is sent, once; a second try sends nothing; a rejection opens the prompt
      for one more. */
  lemma {:induction false} PromptCanBeAnswered(xs: seq<Input>, p: ActivePrompt, deadline: nat, ys: seq<Input>,
      a: Action, b: Action, reason: string)
    requires Play(Clients.Fresh(), xs).core.view.hand.Some?
    requires (forall k :: 0 <= k < |ys| ==> LeavesOpen(ys[k], p)) && p.legal.IsLegal(a) && p.legal.IsLegal(b)
    ensures var prompt := Got(Prompt(p.table, p.hand, p.seat, p.legal, deadline));
            var asked := Play(Clients.Fresh(), xs + [prompt] + ys).core;
            var once := OnInput(asked, Did(Submit(a)));
            var rearmed := OnInput(once.core, Got(ActionRejected(reason))).core;
            && once.effects == [Send(SubmitAction(p.table, p.hand, a))]
            && OnInput(once.core, Did(Submit(b))).effects == []
            && OnInput(rearmed, Did(Submit(b))).effects == [Send(SubmitAction(p.table, p.hand, b))]
  {
    hide Play, LeavesOpen;
    var prompt := Got(Prompt(p.table, p.hand, p.seat, p.legal, deadline));
    PlayOn(Clients.Fresh(), xs, prompt);
    PlayConcat(Clients.Fresh(), xs + [prompt], ys);
    StaysOpen(Play(Clients.Fresh(), xs + [prompt]).core, ys, p);
  }

  /** A login reaches the server: at once over an open connection, otherwise when it opens, once. */
  lemma LoginIsSent(c: Core, credentials: string)
    ensures var r := OnIntent(c, Login(credentials));
            var later := OnIntent(r.core, ConnectionOpened);
            if c.open then r.effects == [Send(Handshake(credentials))]
            else
              && r.effects == [] && later.effects == [Send(Handshake(credentials))]
              && OnIntent(later.core, ConnectionOpened).effects == []
  {
  }

  lemma {:induction false} MessagesNeverSubmit(c: Core, m: ServerMessage)
    ensures forall k :: 0 <= k < |OnMessage(c, m).effects| ==> !Submits(OnMessage(c, m).effects[k])
    decreases m, Nested(m)
  {
    if m.ReplayEvents? { ReplaysNeverSubmit(c, m, |m.events|); }
  }

  lemma {:induction false} ReplaysNeverSubmit(c: Core, m: ServerMessage, n: nat)
    requires m.ReplayEvents? && n <= |m.events|
    ensures forall k :: 0 <= k < |OnReplayed(c, m, n).effects| ==> !Submits(OnReplayed(c, m, n).effects[k])
    decreases m, n
  {
    if n > 0 {
      ReplaysNeverSubmit(c, m, n - 1);
      MessagesNeverSubmit(OnReplayed(c, m, n - 1).core, m.events[n - 1]);
    }
  }

  // ---------------------------------------------------------------------------
  // Replays
  // ---------------------------------------------------------------------------

  /** What the projection of a hand depends on. */
  predicate Same(c: Core, d: Core) { c.view.phase == d.view.phase && c.view.hand == d.view.hand &&
      c.prompt == d.prompt }

  predicate LikeHand(h: Option<CurrentHand>, g: Option<CurrentHand>) {
    h == g || (h.Some? && g.Some? && Disarm(h.value) == Disarm(g.value))
  }

  /** Equal but for the three fields that track the open prompt. */
  predicate Like(c: Core, d: Core) { c.view.phase == d.view.phase && LikeHand(c.view.hand, d.view.hand) &&
      c.prompt == d.prompt }

  lemma PlainSame(c: Core, d: Core, m: ServerMessage)
    requires !m.ReplayEvents?
    ensures Same(c, d) ==> Same(OnPlain(c, m).core, OnPlain(d, m).core)
    ensures Like(c, d) ==> Like(OnPlain(c, m).core, OnPlain(d, m).core)
  {
    hide Project;
    if m.TableEvent? { ProjectSame(c, d, m.event); }
  }

  lemma ProjectSame(c: Core, d: Core, e: Event)
    ensures Same(c, d) ==> Same(Project(c, e), Project(d, e))
    ensures Like(c, d) ==> Like(Project(c, e), Project(d, e))
  {
    hide UpdateBet, BetAfter, AddSeat;
  }

  function Heard(xs: seq<Input>): seq<Input> {
    if xs == [] then []
    else Heard(xs[..|xs| - 1]) + if xs[|xs| - 1].Got? then [xs[|xs| - 1]] else []
  }

  /** The intents a seated player has while staying connected. */
  predicate Quiet(i: Intent) { i.WantTables? || i.Join? || i.Leave? || i.Submit? || i.Beat? }

  ghost predicate QuietRun(xs: seq<Input>) { forall k :: 0 <= k < |xs| && xs[k].Did? ==> Quiet(xs[k].intent) }

  lemma {:induction false} MessageSame(c: Core, d: Core, m: ServerMessage)
    ensures Same(c, d) ==> Same(OnMessage(c, m).core, OnMessage(d, m).core)
    ensures Like(c, d) ==> Like(OnMessage(c, m).core, OnMessage(d, m).core)
    decreases m, Nested(m)
  {
    hide OnPlain, Same, Like;
    if m.ReplayEvents? { ReplayedSame(c, d, m, |m.events|); } else { PlainSame(c, d, m); }
  }

  lemma {:induction false} ReplayedSame(c: Core, d: Core, m: ServerMessage, k: nat)
    requires m.ReplayEvents? && k <= |m.events|
    ensures Same(c, d) ==> Same(OnReplayed(c, m, k).core, OnReplayed(d, m, k).core)
    ensures Like(c, d) ==> Like(OnReplayed(c, m, k).core, OnReplayed(d, m, k).core)
    decreases m, k
  {
    hide Same, Like;
    if k > 0 {
      ReplayedSame(c, d, m, k - 1);
      MessageSame(OnReplayed(c, m, k - 1).core, OnReplayed(d, m, k - 1).core, m.events[k - 1]);
    }
  }

  lemma {:induction false} PlaySame(c: Core, d: Core, xs: seq<Input>)
    requires Same(c, d) && forall k :: 0 <= k < |xs| ==> xs[k].Got?
    ensures Same(Play(c, xs).core, Play(d, xs).core)
  {
    if xs != [] {
      hide OnMessage;
      var n := |xs| - 1;
      PlaySame(c, d, xs[..n]);
      MessageSame(Play(c, xs[..n]).core, Play(d, xs[..n]).core, xs[n].message);
    }
  }

  /** Living through a hand and only hearing it differ in the prompt fields at most. */
  lemma {:induction false} PlayLike(c: Core, d: Core, xs: seq<Input>)
    requires Like(c, d) && QuietRun(xs)
    ensures Like(Play(c, xs).core, Play(d, Heard(xs)).core)
  {
    if xs != [] {
      hide OnMessage;
      var n := |xs| - 1;
      PlayLike(c, d, xs[..n]);
      var p, q := Play(c, xs[..n]).core, Play(d, Heard(xs[..n])).core;
      match xs[n]
      case Got(m) =>
        MessageSame(p, q, m);
        PlayOn(d, Heard(xs[..n]), xs[n]);
      case Did(i) =>
        QuietLike(p, i);
        assert Heard(xs) == Heard(xs[..n]);
    }
  }

  lemma QuietLike(c: Core, i: Intent)
    requires Quiet(i)
    ensures Like(OnIntent(c, i).core, c)
  {
  }

  /** A hand's messages, from its start on. */
  ghost predicate FromStart(xs: seq<Input>, table: nat) {
    && |xs| > 0 && xs[0].Got?
    && xs[0].message.TableEvent? && xs[0].message.table == table && xs[0].message.event.HandStarted?
  }

  lemma StartedSame(c: Core, d: Core, m: ServerMessage, table: nat)
    requires c.view.phase == d.view.phase && AtTable(c, table)
    requires m.TableEvent? && m.table == table && m.event.HandStarted?
    ensures Same(OnInput(c, Got(m)).core, OnInput(d, Got(m)).core)
  {
  }

  lemma SameIsLike(c: Core, d: Core)
    requires Same(c, d)
    ensures Like(c, d)
  {
  }

  lemma PlayFrom(c: Core, xs: seq<Input>)
    requires |xs| > 0
    ensures Play(c, xs).core == Play(OnInput(c, xs[0]).core, xs[1..]).core
  {
    One(c, xs[0]);
    PlayConcat(c, [xs[0]], xs[1..]);
    assert [xs[0]] + xs[1..] == xs;
  }

  /** Two clients in the same seat end up with the same hand and prompt after the same messages
      from the start of a hand, whatever either of them saw before. */
  lemma ReplayForgetsThePast(c: Core, d: Core, xs: seq<Input>, table: nat)
    requires c.view.phase == d.view.phase && AtTable(c, table) && FromStart(xs, table)
    requires forall k :: 0 <= k < |xs| ==> xs[k].Got?
    ensures Same(Play(c, xs).core, Play(d, xs).core)
  {
    hide Play, OnInput, Same;
    PlayFrom(c, xs);
    PlayFrom(d, xs);
    StartedSame(c, d, xs[0].message, table);
    PlaySame(OnInput(c, xs[0]).core, OnInput(d, xs[0]).core, xs[1..]);
  }

  lemma {:induction false} HeardFrom(xs: seq<Input>)
    requires |xs| > 0 && xs[0].Got?
    ensures |Heard(xs)| > 0 && Heard(xs)[0] == xs[0] && Heard(xs)[1..] == Heard(xs[1..])
  {
    var n := |xs| - 1;
    if n == 0 {
      assert xs == [xs[0]] && xs[..0] == [];
      assert Heard(xs) == [] + [xs[0]];
    } else {
      HeardFrom(xs[..n]);
      assert xs[..n][1..] == xs[1..][..n - 1];
      assert xs[1..][n - 1] == xs[n];
    }
  }

  /** Replaying a hand to a client in the same seat rebuilds the state of the client that lived
      through it, actions and all, except whether, with what and until when it is being asked. */
  lemma ReplayAgreesWithLive(c: Core, d: Core, xs: seq<Input>, table: nat)
    requires c.view.phase == d.view.phase && AtTable(c, table) && FromStart(xs, table) && QuietRun(xs)
    ensures Like(Play(c, xs).core, Play(d, Heard(xs)).core)
  {
    hide Play, OnInput, Heard, Same, Like;
    PlayFrom(c, xs);
    HeardFrom(xs);
    PlayFrom(d, Heard(xs));
    StartedSame(c, d, xs[0].message, table);
    SameIsLike(OnInput(c, xs[0]).core, OnInput(d, xs[0]).core);
    PlayLike(OnInput(c, xs[0]).core, OnInput(d, xs[0]).core, xs[1..]);
  }

  /** The same for the one message the server replays a hand with. */
  lemma ReplayMessage(d: Core, hand: nat, events: seq<ServerMessage>)
    requires forall k :: 0 <= k < |events| ==> !events[k].ReplayEvents?
    ensures OnMessage(d, ReplayEvents(hand, events)) == Play(d, AsInputs(events))
  {
    OnMessageFlat(d, ReplayEvents(hand, events));
    FlatIs(ReplayEvents(hand, events), |events|);
    assert AsInputs(events)[..|events|] == AsInputs(events);
  }

  function AsInputs(ms: seq<ServerMessage>): (r: seq<Input>)
    ensures |r| == |ms| && forall k :: 0 <= k < |ms| ==> r[k] == Got(ms[k])
  {
    seq(|ms|, k requires 0 <= k < |ms| => Got(ms[k]))
  }

  lemma {:induction false} FlatIs(m: ServerMessage, k: nat)
    requires m.ReplayEvents? && k <= |m.events| && forall j :: 0 <= j < |m.events| ==> !m.events[j].ReplayEvents?
    ensures FlatReplayed(m, k) == AsInputs(m.events)[..k]
  {
    if k > 0 { FlatIs(m, k - 1); }
  }
}
