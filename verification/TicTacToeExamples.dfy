// Concrete runs that show where the assumptions of the session results are needed.
module TicTacToeExamples {
  import opened Boards
  import opened Interop
  import opened TicTacToeContract
  import opened TicTacToeWorld
  import opened TicTacToeRuns
  import opened TicTacToeSession
  import opened TicTacToeResults

  // Two chains on which nothing has happened.
  const IDLE: Chain := ChainState(Storage(0, map[]), [], [], 0)
  const START: World := map[1 := IDLE, 2 := IDLE]

  // 10 creates game 0 on chain 1; 20 accepts it there.
  const SESSION := Session(1, 0, 10, 1, 20)

  const INVITE := NewGame(1, 0, 10)
  const INVITE_ID := Identifier(SELF, 0, 0, 100, 1)
  const ACCEPT := AcceptedGame(1, 0, 10, 20)
  const ACCEPT_ID := Identifier(SELF, 1, 0, 101, 1)
  const RIVAL := AcceptedGame(1, 0, 10, 30)
  const RIVAL_ID := Identifier(SELF, 0, 0, 101, 2)
  const OPENING := MovePlayed(1, 0, 10, 0, 0)
  const OPENING_ID := Identifier(SELF, 2, 0, 102, 1)

  function Joined(p: Address): View {
    View(p, 10, 0, EMPTY, 9, INVITE_ID)
  }

  const STARTED := View(10, 20, 0, EMPTY[0 := 1], 8, ACCEPT_ID)

  // ---- Running step by step ----

  // An honest run of the session that ends in w.
  ghost predicate Reaches(steps: seq<Step>, w: World) {
    Run(START, steps) == w && HonestRun(START, SESSION, steps) && SESSION.In(w)
  }

  lemma NoSteps()
    ensures Reaches([], START)
  {
  }

  lemma Extend(steps: seq<Step>, w: World, step: Step, w': World)
    requires Reaches(steps, w) && Honest(w, SESSION, step) && Apply(w, step) == w' && SESSION.In(w')
    ensures Reaches(steps + [step], w')
  {
    assert (steps + [step])[..|steps|] == steps;
  }

  // What a call leaves of its chain.
  function Logging(c: Chain, s: Storage, event: Event): Chain {
    ChainState(s, c.logs + [Entry(|c.times|, |c.logs| - c.start, SELF, event)], c.times, c.start)
  }

  // An honest successful call on chain ch.
  lemma CallSucceeds(steps: seq<Step>, w: World, ch: nat, sender: Address, call: Call, s: Storage, event: Event)
    requires Reaches(steps, w) && ch in w && sender != ZERO && Execute(w, ch, sender, call) == Done(s, event)
    requires Honest(w, SESSION, Tx(ch, sender, call))
    ensures Reaches(steps + [Tx(ch, sender, call)], w[ch := Logging(w[ch], s, event)])
  {
    var step := Tx(ch, sender, call);
    hide Execute;
    assert Apply(w, step) == w[ch := Logging(w[ch], s, event)];
    hide Apply;
    Extend(steps, w, step, w[ch := Logging(w[ch], s, event)]);
  }

  lemma Seals(steps: seq<Step>, w: World, ch: nat, time: nat)
    requires Reaches(steps, w) && ch in w
    ensures Reaches(steps + [Step.Seal(ch, time)], w[ch := w[ch].Seal(time)])
  {
    Extend(steps, w, Step.Seal(ch, time), w[ch := w[ch].Seal(time)]);
  }

  // Log i of chain ch can be presented.
  lemma Presents(w: World, ch: nat, i: nat, id: Identifier)
    requires ch in w && i < |w[ch].logs| && id.chainId == ch
    requires At(w[ch].logs[i], id, w[ch].logs[i].event)
    requires id.blockNumber < |w[ch].times| && id.timestamp == w[ch].times[id.blockNumber]
    ensures Admitted(w, id, w[ch].logs[i].event)
  {
  }

  // ---- A rival on another chain ----

  // 10 invites; 20 accepts on chain 1 and 30 on chain 2; everything is sealed.
  const CONTEST: seq<Step> := [
    Tx(1, 10, CallNewGame),
    Seal(1, 100),
    Tx(1, 20, CallAccept(INVITE_ID, INVITE)),
    Tx(2, 30, CallAccept(INVITE_ID, INVITE)),
    Seal(1, 101),
    Seal(2, 101)]

  const INVITED: Chain := ChainState(Storage(1, map[]), [Entry(0, 0, SELF, INVITE)], [100], 1)
  const ACCEPTED: Chain :=
    ChainState(Storage(1, map[Key(1, 0, 20) := Joined(20)]),
               [Entry(0, 0, SELF, INVITE), Entry(1, 0, SELF, ACCEPT)], [100], 1)
  const RIVALLED: Chain :=
    ChainState(Storage(0, map[Key(1, 0, 30) := Joined(30)]), [Entry(0, 0, SELF, RIVAL)], [], 0)

  lemma InviteRuns()
    ensures Reaches(CONTEST[..2], map[1 := INVITED, 2 := IDLE])
  {
    NoSteps();
    CallSucceeds([], START, 1, 10, CallNewGame, Storage(1, map[]), INVITE);
    var c: Chain := ChainState(Storage(1, map[]), [Entry(0, 0, SELF, INVITE)], [], 0);
    assert Logging(IDLE, Storage(1, map[]), INVITE) == c;
    assert [] + [CONTEST[0]] == [CONTEST[0]];
    Seals([CONTEST[0]], START[1 := c], 1, 100);
    assert c.Seal(100) == INVITED;
    assert START[1 := c][1 := INVITED] == map[1 := INVITED, 2 := IDLE];
    assert [CONTEST[0]] + [CONTEST[1]] == CONTEST[..2];
  }

  // Anyone but the creator can accept the sealed invitation, from any chain.
  lemma InviteeAccepts(u: World, ch: nat, p: Address)
    requires 1 in u && ch in u && u[1].logs != [] && At(u[1].logs[0], INVITE_ID, INVITE) && 0 < |u[1].times|
    requires u[1].times[0] == 100
    requires p != 10 && Key(1, 0, p) !in u[ch].storage.games
    ensures var s := u[ch].storage;
            Execute(u, ch, p, CallAccept(INVITE_ID, INVITE))
            == Done(s.(games := s.games[Key(1, 0, p) := Joined(p)]), AcceptedGame(1, 0, 10, p))
  {
    Presents(u, 1, 0, INVITE_ID);
  }

  lemma AcceptRuns()
    ensures Reaches(CONTEST[..3], map[1 := ACCEPTED, 2 := IDLE])
  {
    hide Execute;
    hide Reaches;
    InviteRuns();
    var u: World := map[1 := INVITED, 2 := IDLE];
    InviteeAccepts(u, 1, 20);
    assert map[][Key(1, 0, 20) := Joined(20)] == map[Key(1, 0, 20) := Joined(20)];
    CallSucceeds(CONTEST[..2], u, 1, 20, CallAccept(INVITE_ID, INVITE), ACCEPTED.storage, ACCEPT);
    assert Logging(INVITED, ACCEPTED.storage, ACCEPT) == ACCEPTED;
    assert CONTEST[..2] + [CONTEST[2]] == CONTEST[..3];
    assert u[1 := ACCEPTED] == map[1 := ACCEPTED, 2 := IDLE];
  }

  lemma RivalRuns()
    ensures Reaches(CONTEST[..4], map[1 := ACCEPTED, 2 := RIVALLED])
  {
    hide Execute;
    hide Reaches;
    AcceptRuns();
    var u: World := map[1 := ACCEPTED, 2 := IDLE];
    InviteeAccepts(u, 2, 30);
    assert map[][Key(1, 0, 30) := Joined(30)] == map[Key(1, 0, 30) := Joined(30)];
    CallSucceeds(CONTEST[..3], u, 2, 30, CallAccept(INVITE_ID, INVITE), RIVALLED.storage, RIVAL);
    assert Logging(IDLE, RIVALLED.storage, RIVAL) == RIVALLED;
    assert CONTEST[..3] + [CONTEST[3]] == CONTEST[..4];
    assert u[2 := RIVALLED] == map[1 := ACCEPTED, 2 := RIVALLED];
  }

  lemma ContestRuns()
    ensures Reaches(CONTEST, map[1 := ACCEPTED.Seal(101), 2 := RIVALLED.Seal(101)])
  {
    hide Reaches;
    RivalRuns();
    var u: World := map[1 := ACCEPTED, 2 := RIVALLED];
    Seals(CONTEST[..4], u, 1, 101);
    assert CONTEST[..4] + [CONTEST[4]] == CONTEST[..5];
    Seals(CONTEST[..5], u[1 := ACCEPTED.Seal(101)], 2, 101);
    assert CONTEST[..5] + [CONTEST[5]] == CONTEST;
    assert u[1 := ACCEPTED.Seal(101)][2 := RIVALLED.Seal(101)] == map[1 := ACCEPTED.Seal(101), 2 := RIVALLED.Seal(101)];
  }

  lemma StartIsInitial()
    ensures Initial(START)
  {
  }

  // ---- The contested game goes on between 10 and 20 ----

  const REPLY := MovePlayed(1, 0, 20, 1, 1)

  // The creator starts with the session's acceptance, 20 answers.
  const PLAY: seq<Step> := CONTEST + [
    Tx(1, 10, CallStart(ACCEPT_ID, ACCEPT, 0, 0)),
    Seal(1, 102),
    Tx(1, 20, CallMove(OPENING_ID, OPENING, 1, 1)),
    Seal(1, 103)]

  const REPLIED := View(20, 10, 0, EMPTY[0 := 2][4 := 1], 7, OPENING_ID)

  const OPENED: Chain :=
    ChainState(Storage(1, map[Key(1, 0, 20) := Joined(20), Key(1, 0, 10) := STARTED]),
               [Entry(0, 0, SELF, INVITE), Entry(1, 0, SELF, ACCEPT), Entry(2, 0, SELF, OPENING)], [100, 101], 2)
  const ANSWERED: Chain :=
    ChainState(Storage(1, map[Key(1, 0, 20) := REPLIED, Key(1, 0, 10) := STARTED]),
               [Entry(0, 0, SELF, INVITE), Entry(1, 0, SELF, ACCEPT), Entry(2, 0, SELF, OPENING),
                Entry(3, 0, SELF, REPLY)],
               [100, 101, 102], 3)

  lemma OpeningSucceeds(u: World)
    requires u == map[1 := ACCEPTED.Seal(101), 2 := RIVALLED.Seal(101)]
    ensures Execute(u, 1, 10, CallStart(ACCEPT_ID, ACCEPT, 0, 0)) == Done(OPENED.storage, OPENING)
  {
    Presents(u, 1, 1, ACCEPT_ID);
    assert OPENED.storage == u[1].storage.(games := u[1].storage.games[Key(1, 0, 10) := STARTED]);
  }

  lemma OpeningRuns()
    ensures Reaches(PLAY[..8], map[1 := OPENED.Seal(102), 2 := RIVALLED.Seal(101)])
  {
    hide Execute;
    hide Reaches;
    ContestRuns();
    var u: World := map[1 := ACCEPTED.Seal(101), 2 := RIVALLED.Seal(101)];
    OpeningSucceeds(u);
    CallSucceeds(CONTEST, u, 1, 10, CallStart(ACCEPT_ID, ACCEPT, 0, 0), OPENED.storage, OPENING);
    assert Logging(ACCEPTED.Seal(101), OPENED.storage, OPENING) == OPENED;
    assert CONTEST + [PLAY[6]] == PLAY[..7];
    var v: World := map[1 := OPENED, 2 := RIVALLED.Seal(101)];
    assert u[1 := OPENED] == v;
    Seals(PLAY[..7], v, 1, 102);
    assert PLAY[..7] + [PLAY[7]] == PLAY[..8];
    assert v[1 := OPENED.Seal(102)] == map[1 := OPENED.Seal(102), 2 := RIVALLED.Seal(101)];
  }

  lemma ReplySucceeds(u: World)
    requires u == map[1 := OPENED.Seal(102), 2 := RIVALLED.Seal(101)]
    ensures Execute(u, 1, 20, CallMove(OPENING_ID, OPENING, 1, 1)) == Done(ANSWERED.storage, REPLY)
  {
    Presents(u, 1, 2, OPENING_ID);
    assert ANSWERED.storage == u[1].storage.(games := u[1].storage.games[Key(1, 0, 20) := REPLIED]);
    assert !HasLine(REPLIED.moves, 1);
  }

  lemma PlayRuns()
    ensures Reaches(PLAY, map[1 := ANSWERED.Seal(103), 2 := RIVALLED.Seal(101)])
  {
    hide Execute;
    hide Reaches;
    hide HasLine;
    OpeningRuns();
    var u: World := map[1 := OPENED.Seal(102), 2 := RIVALLED.Seal(101)];
    ReplySucceeds(u);
    CallSucceeds(PLAY[..8], u, 1, 20, CallMove(OPENING_ID, OPENING, 1, 1), ANSWERED.storage, REPLY);
    assert Logging(OPENED.Seal(102), ANSWERED.storage, REPLY) == ANSWERED;
    assert PLAY[..8] + [PLAY[8]] == PLAY[..9];
    var v: World := map[1 := ANSWERED, 2 := RIVALLED.Seal(101)];
    assert u[1 := ANSWERED] == v;
    Seals(PLAY[..9], v, 1, 103);
    assert PLAY[..9] + [PLAY[9]] == PLAY;
    assert v[1 := ANSWERED.Seal(103)] == map[1 := ANSWERED.Seal(103), 2 := RIVALLED.Seal(101)];
  }

  // Then 20 accepts once more: nine moves on a board with seven free cells.
  lemma AcceptsOnMarkedBoard()
    ensures var w := Run(START, PLAY + [Tx(1, 20, CallAccept(INVITE_ID, INVITE))]);
            && 1 in w
            && var v := w[1].storage.At(SESSION.AcceptorKey());
            v.movesLeft == 9 && Empties(v.moves) == 7
  {
    PlayRuns();
    var u: World := map[1 := ANSWERED.Seal(103), 2 := RIVALLED.Seal(101)];
    var step := Tx(1, 20, CallAccept(INVITE_ID, INVITE));
    Presents(u, 1, 0, INVITE_ID);
    assert (PLAY + [step])[..|PLAY|] == PLAY;
    assert Run(START, PLAY + [step]) == Apply(u, step);
    var b := REPLIED.moves;
    assert Apply(u, step)[1].storage.At(SESSION.AcceptorKey()).moves == b;
    EmptiesOfReplied();
  }

  lemma EmptiesOfReplied()
    ensures Empties(REPLIED.moves) == 7
  {
    EmptiesOfZeros(9);
    assert EMPTY == seq(9, _ => 0);
    EmptiesUpdate(EMPTY, 0, 2);
    EmptiesUpdate(EMPTY[0 := 2], 4, 1);
  }

  // ---- A rival on the acceptor's own chain ----

  const INTRUSION := MovePlayed(1, 0, 30, 1, 1)
  const INTRUSION_ID := Identifier(SELF, 3, 0, 103, 1)

  // 20 and 30 both accept on chain 1; the creator starts against 20, but 30 answers.
  const INTRUDE: seq<Step> := CONTEST[..3] + [
    Tx(1, 30, CallAccept(INVITE_ID, INVITE)),
    Seal(1, 101),
    Tx(1, 10, CallStart(ACCEPT_ID, ACCEPT, 0, 0)),
    Seal(1, 102),
    Tx(1, 30, CallMove(OPENING_ID, OPENING, 1, 1)),
    Seal(1, 103)]

  const INTRUDED := View(30, 10, 0, EMPTY[0 := 2][4 := 1], 7, OPENING_ID)

  const CROWDED: Chain :=
    ChainState(Storage(1, map[Key(1, 0, 20) := Joined(20), Key(1, 0, 30) := Joined(30)]),
               [Entry(0, 0, SELF, INVITE), Entry(1, 0, SELF, ACCEPT), Entry(1, 1, SELF, RIVAL)], [100], 1)
  const BEGUN: Chain :=
    ChainState(Storage(1, map[Key(1, 0, 20) := Joined(20), Key(1, 0, 30) := Joined(30), Key(1, 0, 10) := STARTED]),
               [Entry(0, 0, SELF, INVITE), Entry(1, 0, SELF, ACCEPT), Entry(1, 1, SELF, RIVAL),
                Entry(2, 0, SELF, OPENING)],
               [100, 101], 3)
  const DISTURBED: Chain :=
    ChainState(Storage(1, map[Key(1, 0, 20) := Joined(20), Key(1, 0, 30) := INTRUDED, Key(1, 0, 10) := STARTED]),
               [Entry(0, 0, SELF, INVITE), Entry(1, 0, SELF, ACCEPT), Entry(1, 1, SELF, RIVAL),
                Entry(2, 0, SELF, OPENING),
                Entry(3, 0, SELF, INTRUSION)],
               [100, 101, 102], 4)

  lemma CrowdRuns()
    ensures Reaches(INTRUDE[..5], map[1 := CROWDED.Seal(101), 2 := IDLE])
  {
    hide Execute;
    hide Reaches;
    AcceptRuns();
    var u: World := map[1 := ACCEPTED, 2 := IDLE];
    InviteeAccepts(u, 1, 30);
    assert CROWDED.storage == u[1].storage.(games := u[1].storage.games[Key(1, 0, 30) := Joined(30)]);
    CallSucceeds(CONTEST[..3], u, 1, 30, CallAccept(INVITE_ID, INVITE), CROWDED.storage, RIVAL);
    assert Logging(ACCEPTED, CROWDED.storage, RIVAL) == CROWDED;
    assert CONTEST[..3] + [INTRUDE[3]] == INTRUDE[..4];
    var v: World := map[1 := CROWDED, 2 := IDLE];
    assert u[1 := CROWDED] == v;
    Seals(INTRUDE[..4], v, 1, 101);
    assert INTRUDE[..4] + [INTRUDE[4]] == INTRUDE[..5];
    assert v[1 := CROWDED.Seal(101)] == map[1 := CROWDED.Seal(101), 2 := IDLE];
  }

  lemma BeginSucceeds(u: World)
    requires u == map[1 := CROWDED.Seal(101), 2 := IDLE]
    ensures Execute(u, 1, 10, CallStart(ACCEPT_ID, ACCEPT, 0, 0)) == Done(BEGUN.storage, OPENING)
  {
    Presents(u, 1, 1, ACCEPT_ID);
    assert BEGUN.storage == u[1].storage.(games := u[1].storage.games[Key(1, 0, 10) := STARTED]);
  }

  lemma BeginRuns()
    ensures Reaches(INTRUDE[..7], map[1 := BEGUN.Seal(102), 2 := IDLE])
  {
    hide Execute;
    hide Reaches;
    CrowdRuns();
    var u: World := map[1 := CROWDED.Seal(101), 2 := IDLE];
    BeginSucceeds(u);
    CallSucceeds(INTRUDE[..5], u, 1, 10, CallStart(ACCEPT_ID, ACCEPT, 0, 0), BEGUN.storage, OPENING);
    assert Logging(CROWDED.Seal(101), BEGUN.storage, OPENING) == BEGUN;
    assert INTRUDE[..5] + [INTRUDE[5]] == INTRUDE[..6];
    var v: World := map[1 := BEGUN, 2 := IDLE];
    assert u[1 := BEGUN] == v;
    Seals(INTRUDE[..6], v, 1, 102);
    assert INTRUDE[..6] + [INTRUDE[6]] == INTRUDE[..7];
    assert v[1 := BEGUN.Seal(102)] == map[1 := BEGUN.Seal(102), 2 := IDLE];
  }

  lemma IntrusionSucceeds(u: World)
    requires u == map[1 := BEGUN.Seal(102), 2 := IDLE]
    ensures Execute(u, 1, 30, CallMove(OPENING_ID, OPENING, 1, 1)) == Done(DISTURBED.storage, INTRUSION)
  {
    Presents(u, 1, 3, OPENING_ID);
    assert DISTURBED.storage == u[1].storage.(games := u[1].storage.games[Key(1, 0, 30) := INTRUDED]);
    assert !HasLine(INTRUDED.moves, 1);
  }

  lemma IntrudeRuns()
    ensures Reaches(INTRUDE, map[1 := DISTURBED.Seal(103), 2 := IDLE])
  {
    hide Execute;
    hide Reaches;
    hide HasLine;
    BeginRuns();
    var u: World := map[1 := BEGUN.Seal(102), 2 := IDLE];
    var s := DISTURBED.storage;
    IntrusionSucceeds(u);
    CallSucceeds(INTRUDE[..7], u, 1, 30, CallMove(OPENING_ID, OPENING, 1, 1), s, INTRUSION);
    assert Logging(BEGUN.Seal(102), s, INTRUSION) == DISTURBED;
    assert INTRUDE[..7] + [INTRUDE[7]] == INTRUDE[..8];
    var v: World := map[1 := DISTURBED, 2 := IDLE];
    assert u[1 := DISTURBED] == v;
    Seals(INTRUDE[..8], v, 1, 103);
    assert INTRUDE[..8] + [INTRUDE[8]] == INTRUDE;
    assert v[1 := DISTURBED.Seal(103)] == map[1 := DISTURBED.Seal(103), 2 := IDLE];
  }

  // If the creator now answers 30's move instead of waiting for 20's, the contract lets it: the
  // creator has moved twice, 20 not at all, and the two boards no longer tell one game.
  lemma AnswersStranger()
    ensures var step := Tx(1, 10, CallMove(INTRUSION_ID, INTRUSION, 2, 2));
            var w := Run(START, INTRUDE + [step]);
            && SESSION.In(w)
            && HonestRun(START, SESSION, INTRUDE) && !Honest(Run(START, INTRUDE), SESSION, step)
            && !Alternate(TapesIn(w, SESSION).a, TapesIn(w, SESSION).p)
            && w[1].storage.At(SESSION.CreatorKey()).moves == EMPTY[0 := 1][4 := 2][8 := 1]
            && w[1].storage.At(SESSION.AcceptorKey()).moves == EMPTY
  {
    IntrudeRuns();
    var u: World := map[1 := DISTURBED.Seal(103), 2 := IDLE];
    var step := Tx(1, 10, CallMove(INTRUSION_ID, INTRUSION, 2, 2));
    assert (INTRUDE + [step])[..|INTRUDE|] == INTRUDE;
    assert Run(START, INTRUDE + [step]) == Apply(u, step);
    hide Run;
    hide HonestRun;
    StrangerAnswered(u);
    hide Apply;
    TapesOfAnswer(Entry(4, 0, SELF, MovePlayed(1, 0, 10, 2, 2)));
  }

  lemma StrangerAnswered(u: World)
    requires u == map[1 := DISTURBED.Seal(103), 2 := IDLE]
    ensures var w := Apply(u, Tx(1, 10, CallMove(INTRUSION_ID, INTRUSION, 2, 2)));
            && SESSION.In(w)
            && w[1].logs == DISTURBED.logs + [Entry(4, 0, SELF, MovePlayed(1, 0, 10, 2, 2))]
            && w[1].storage.At(SESSION.CreatorKey()).moves == EMPTY[0 := 1][4 := 2][8 := 1]
            && w[1].storage.At(SESSION.AcceptorKey()).moves == EMPTY
  {
    Presents(u, 1, 4, INTRUSION_ID);
    hide Admitted;
    var b: Board := EMPTY[0 := 1][4 := 2][8 := 1];
    assert STARTED.moves[4 := 2][8 := 1] == b;
    assert !HasLine(b, 1);
  }

  lemma TapesOfAnswer(e: Entry)
    requires e == Entry(4, 0, SELF, MovePlayed(1, 0, 10, 2, 2))
    ensures |Select(DISTURBED.logs + [e], Moves(1, 0, 10))| == 2
    ensures |Select(DISTURBED.logs + [e], Moves(1, 0, 20))| == 0
  {
    var (q, q') := (Moves(1, 0, 10), Moves(1, 0, 20));
    var (e0, e1, e2, e3, e4) := (DISTURBED.logs[0], DISTURBED.logs[1], DISTURBED.logs[2], DISTURBED.logs[3],
                                 DISTURBED.logs[4]);
    SelectAppend(DISTURBED.logs, e, q);
    SelectAppend(DISTURBED.logs, e, q');
    SelectAppend([e0, e1, e2, e3], e4, q);
    SelectAppend([e0, e1, e2, e3], e4, q');
    SelectAppend([e0, e1, e2], e3, q);
    SelectAppend([e0, e1, e2], e3, q');
    SelectNone([e0, e1, e2], q);
    SelectNone([e0, e1, e2], q');
    assert DISTURBED.logs == [e0, e1, e2, e3] + [e4];
    assert [e0, e1, e2, e3] == [e0, e1, e2] + [e3];
  }
}
