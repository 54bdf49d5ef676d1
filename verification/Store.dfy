/** The storage loop over commands, with a queue of waiting readers per absent key. */
module Stores {
  import opened Options

  type Key = seq<nat>
  type Value = seq<nat>
  type Sender = nat

  /** `kept` says whether the database took the value; the loop ignores a failure to write. */
  datatype Command =
    | Write(key: Key, value: Value, kept: bool)
    | Read(key: Key, sender: Sender)
    | NotifyRead(key: Key, sender: Sender)

  datatype Reply = Reply(sender: Sender, value: Option<Value>)

  datatype State = State(db: map<Key, Value>, obligations: map<Key, seq<Sender>>, replies: seq<Reply>)

  function Queue(obligations: map<Key, seq<Sender>>, key: Key): seq<Sender> {
    if key in obligations then obligations[key] else []
  }

  function Lookup(db: map<Key, Value>, key: Key): Option<Value> {
    if key in db then Some(db[key]) else None
  }

  function ToAll(senders: seq<Sender>, value: Value): (replies: seq<Reply>)
    ensures |replies| == |senders|
    ensures forall i :: 0 <= i < |senders| ==> replies[i] == Reply(senders[i], Some(value))
  {
    seq(|senders|, i requires 0 <= i < |senders| => Reply(senders[i], Some(value)))
  }

  /** What one turn of the loop does. */
  function Serve(s: State, cmd: Command): State {
    match cmd
    case Write(key, value, kept) =>
      State(if kept then s.db[key := value] else s.db, s.obligations - {key},
            s.replies + ToAll(Queue(s.obligations, key), value))
    case Read(key, sender) => s.(replies := s.replies + [Reply(sender, Lookup(s.db, key))])
    case NotifyRead(key, sender) =>
      if key in s.db then s.(replies := s.replies + [Reply(sender, Some(s.db[key]))])
      else s.(obligations := s.obligations[key := Queue(s.obligations, key) + [sender]])
  }

  /** The state after a sequence of commands. */
  function After(cmds: seq<Command>): State {
    if cmds == [] then State(map[], map[], []) else Serve(After(cmds[..|cmds| - 1]), cmds[|cmds| - 1])
  }

  // ----- What readers should get, from the commands alone -----

  /** The value of the last successful write of the key. */
  function Latest(cmds: seq<Command>, key: Key): Option<Value> {
    if cmds == [] then None
    else
      var cmd := cmds[|cmds| - 1];
      if cmd.Write? && cmd.key == key && cmd.kept then Some(cmd.value) else Latest(cmds[..|cmds| - 1], key)
  }

  /** The value of the first write of the key from position i on, whether it was kept or not. */
  function FirstWrite(cmds: seq<Command>, key: Key, i: nat): Option<Value>
    requires i <= |cmds|
    decreases |cmds| - i
  {
    if i == |cmds| then None
    else if cmds[i].Write? && cmds[i].key == key then Some(cmds[i].value)
    else FirstWrite(cmds, key, i + 1)
  }

  /** What the NotifyRead at position i is to be answered, if anything yet. */
  function Due(cmds: seq<Command>, i: nat): Option<Value>
    requires i < |cmds|
  {
    var now := Latest(cmds[..i], cmds[i].key);
    if now.Some? then now else FirstWrite(cmds, cmds[i].key, i + 1)
  }

  /** Every reader brings its own reply channel. */
  ghost predicate OwnChannels(cmds: seq<Command>) {
    forall i, j :: 0 <= i < j < |cmds| && !cmds[i].Write? && !cmds[j].Write? ==> cmds[i].sender != cmds[j].sender
  }

  ghost function Answers(replies: seq<Reply>, sender: Sender): seq<Option<Value>> {
    if replies == [] then []
    else Answers(replies[..|replies| - 1], sender)
         + if replies[|replies| - 1].sender == sender then [replies[|replies| - 1].value] else []
  }

  // ----- The database and the queues -----

  lemma {:induction false} DbIsLatest(cmds: seq<Command>, key: Key)
    ensures Lookup(After(cmds).db, key) == Latest(cmds, key)
    decreases |cmds|
  {
    if cmds != [] {
      DbIsLatest(cmds[..|cmds| - 1], key);
    }
  }

  /** The readers of the key still waiting: those that found nothing, with no write since. */
  function Pending(cmds: seq<Command>, key: Key): seq<Sender> {
    if cmds == [] then []
    else
      var front, cmd := cmds[..|cmds| - 1], cmds[|cmds| - 1];
      if cmd.key != key || cmd.Read? then Pending(front, key)
      else if cmd.Write? then []
      else Pending(front, key) + if Latest(front, key).None? then [cmd.sender] else []
  }

  lemma {:induction false} QueueIsPending(cmds: seq<Command>, key: Key)
    ensures Queue(After(cmds).obligations, key) == Pending(cmds, key)
    ensures key in After(cmds).obligations <==> Pending(cmds, key) != []
    decreases |cmds|
  {
    if cmds != [] {
      QueueIsPending(cmds[..|cmds| - 1], key);
      DbIsLatest(cmds[..|cmds| - 1], key);
    }
  }

  /** Nobody waits for a key that is there. */
  lemma {:induction false} ObligationsAreAbsent(cmds: seq<Command>)
    ensures forall key | key in After(cmds).obligations :: key !in After(cmds).db
    decreases |cmds|
  {
    if cmds != [] {
      ObligationsAreAbsent(cmds[..|cmds| - 1]);
    }
  }

  // ----- Answers -----

  lemma {:induction false} AnswersConcat(a: seq<Reply>, b: seq<Reply>, sender: Sender)
    ensures Answers(a + b, sender) == Answers(a, sender) + Answers(b, sender)
    decreases |b|
  {
    if b == [] {
      assert a + b == a;
    } else {
      assert (a + b)[..|a + b| - 1] == a + b[..|b| - 1];
      AnswersConcat(a, b[..|b| - 1], sender);
    }
  }

  lemma {:induction false} NoAnswers(replies: seq<Reply>, sender: Sender)
    requires forall i :: 0 <= i < |replies| ==> replies[i].sender != sender
    ensures Answers(replies, sender) == []
    decreases |replies|
  {
    if replies != [] {
      NoAnswers(replies[..|replies| - 1], sender);
    }
  }

  ghost predicate Once(senders: seq<Sender>) {
    forall i, j :: 0 <= i < j < |senders| ==> senders[i] != senders[j]
  }

  lemma {:induction false} AnswersToAll(senders: seq<Sender>, value: Value, sender: Sender)
    requires Once(senders)
    ensures Answers(ToAll(senders, value), sender) == if sender in senders then [Some(value)] else []
    decreases |senders|
  {
    if senders != [] {
      var front := senders[..|senders| - 1];
      assert ToAll(senders, value)[..|senders| - 1] == ToAll(front, value);
      AnswersToAll(front, value, sender);
      assert senders == front + [senders[|senders| - 1]];
    }
  }

  /** Only readers that came are ever queued or answered. */
  ghost predicate Came(cmds: seq<Command>, sender: Sender) {
    exists i :: 0 <= i < |cmds| && !cmds[i].Write? && cmds[i].sender == sender
  }

  lemma CameLater(cmds: seq<Command>, sender: Sender)
    requires cmds != [] && Came(cmds[..|cmds| - 1], sender)
    ensures Came(cmds, sender)
  {}

  lemma {:induction false} PendingCame(cmds: seq<Command>, key: Key, sender: Sender)
    requires sender in Pending(cmds, key)
    ensures Came(cmds, sender)
    decreases |cmds|
  {
    var front, cmd := cmds[..|cmds| - 1], cmds[|cmds| - 1];
    if sender in Pending(front, key) {
      PendingCame(front, key, sender);
      CameLater(cmds, sender);
    } else {
      assert cmds[|cmds| - 1].sender == sender;
    }
  }

  lemma {:induction false} AnsweredCame(cmds: seq<Command>, i: nat)
    requires i < |After(cmds).replies|
    ensures Came(cmds, After(cmds).replies[i].sender)
    decreases |cmds|
  {
    var front, cmd := cmds[..|cmds| - 1], cmds[|cmds| - 1];
    var s := After(front);
    var sender := After(cmds).replies[i].sender;
    if i < |s.replies| {
      AnsweredCame(front, i);
      CameLater(cmds, sender);
    } else if cmd.Write? {
      QueueIsPending(front, cmd.key);
      assert sender in Pending(front, cmd.key);
      PendingCame(front, cmd.key, sender);
      CameLater(cmds, sender);
    } else {
      assert cmds[|cmds| - 1].sender == sender;
    }
  }

  lemma FrontOwnChannels(cmds: seq<Command>)
    requires cmds != [] && OwnChannels(cmds)
    ensures OwnChannels(cmds[..|cmds| - 1])
    ensures !cmds[|cmds| - 1].Write? ==> !Came(cmds[..|cmds| - 1], cmds[|cmds| - 1].sender)
  {}

  lemma {:induction false} PendingOnce(cmds: seq<Command>, key: Key)
    requires OwnChannels(cmds)
    ensures Once(Pending(cmds, key))
    decreases |cmds|
  {
    if cmds != [] {
      var front, cmd := cmds[..|cmds| - 1], cmds[|cmds| - 1];
      FrontOwnChannels(cmds);
      PendingOnce(front, key);
      if !cmd.Write? && cmd.sender in Pending(front, key) {
        PendingCame(front, key, cmd.sender);
      }
    }
  }

  lemma {:induction false} FirstWriteSnoc(cmds: seq<Command>, cmd: Command, key: Key, i: nat)
    requires i <= |cmds|
    ensures FirstWrite(cmds + [cmd], key, i)
            == if FirstWrite(cmds, key, i).Some? then FirstWrite(cmds, key, i)
               else if cmd.Write? && cmd.key == key then Some(cmd.value) else None
    decreases |cmds| - i
  {
    if i < |cmds| {
      FirstWriteSnoc(cmds, cmd, key, i + 1);
    } else {
      assert FirstWrite(cmds + [cmd], key, i + 1) == None;
    }
  }

  /** What one more command adds to what is due. */
  lemma DueSnoc(cmds: seq<Command>, i: nat)
    requires i < |cmds| - 1
    ensures var front, cmd := cmds[..|cmds| - 1], cmds[|cmds| - 1];
            Due(cmds, i) == if Due(front, i).Some? then Due(front, i)
                            else if cmd.Write? && cmd.key == cmds[i].key then Some(cmd.value) else None
  {
    var front, cmd := cmds[..|cmds| - 1], cmds[|cmds| - 1];
    assert cmds == front + [cmd] && front[..i] == cmds[..i];
    FirstWriteSnoc(front, cmd, cmds[i].key, i + 1);
  }

  /** A reader waits exactly as long as nothing is due to it. */
  lemma {:induction false} WaitsIffNothingDue(cmds: seq<Command>, i: nat)
    requires OwnChannels(cmds) && i < |cmds| && cmds[i].NotifyRead?
    ensures cmds[i].sender in Pending(cmds, cmds[i].key) <==> Due(cmds, i).None?
    decreases |cmds|
  {
    var front, cmd := cmds[..|cmds| - 1], cmds[|cmds| - 1];
    FrontOwnChannels(cmds);
    if i == |cmds| - 1 {
      if cmd.sender in Pending(front, cmd.key) {
        PendingCame(front, cmd.key, cmd.sender);
      }
    } else {
      WaitsIffNothingDue(front, i);
      DueSnoc(cmds, i);
    }
  }

  /** No lost wake-up: over any command sequence every NotifyRead is answered at most once, with the
      value present when it came or else with the first value written afterwards, and until then it
      is queued. */
  lemma {:induction false} NoLostWakeUp(cmds: seq<Command>, i: nat)
    requires OwnChannels(cmds) && i < |cmds| && cmds[i].NotifyRead?
    ensures Answers(After(cmds).replies, cmds[i].sender) == if Due(cmds, i).Some? then [Due(cmds, i)] else []
    ensures Due(cmds, i).None? <==> cmds[i].sender in Queue(After(cmds).obligations, cmds[i].key)
    decreases |cmds|
  {
    QueueIsPending(cmds, cmds[i].key);
    WaitsIffNothingDue(cmds, i);
    var front, cmd := cmds[..|cmds| - 1], cmds[|cmds| - 1];
    var s, sender := After(front), cmds[i].sender;
    FrontOwnChannels(cmds);
    DbIsLatest(front, cmd.key);
    var added := After(cmds).replies[|s.replies|..];
    assert After(cmds).replies == s.replies + added;
    AnswersConcat(s.replies, added, sender);
    if i == |cmds| - 1 {
      forall j | 0 <= j < |s.replies| ensures s.replies[j].sender != sender {
        AnsweredCame(front, j);
      }
      NoAnswers(s.replies, sender);
      assert added == if cmd.key in s.db then [Reply(sender, Some(s.db[cmd.key]))] else [];
      OneReply(added, sender);
    } else {
      NoLostWakeUp(front, i);
      DueSnoc(cmds, i);
      LaterReplies(cmds, i, added);
    }
  }

  lemma OneReply(added: seq<Reply>, sender: Sender)
    requires |added| <= 1
    ensures Answers(added, sender) == if |added| == 1 && added[0].sender == sender then [added[0].value] else []
  {}

  lemma LaterReplies(cmds: seq<Command>, i: nat, added: seq<Reply>)
    requires OwnChannels(cmds) && i < |cmds| - 1 && cmds[i].NotifyRead?
    requires |After(cmds[..|cmds| - 1]).replies| <= |After(cmds).replies|
    requires added == After(cmds).replies[|After(cmds[..|cmds| - 1]).replies|..]
    ensures var front, cmd := cmds[..|cmds| - 1], cmds[|cmds| - 1];
            Answers(added, cmds[i].sender)
            == if cmd.Write? && cmd.key == cmds[i].key && Due(front, i).None? then [Some(cmd.value)] else []
  {
    var front, cmd := cmds[..|cmds| - 1], cmds[|cmds| - 1];
    var sender := cmds[i].sender;
    FrontOwnChannels(cmds);
    if cmd.Write? {
      QueueIsPending(front, cmd.key);
      PendingOnce(front, cmd.key);
      assert added == ToAll(Pending(front, cmd.key), cmd.value);
      AnswersToAll(Pending(front, cmd.key), cmd.value, sender);
      WaitsIffNothingDue(front, i);
      if cmd.key != cmds[i].key && sender in Pending(front, cmd.key) {
        PendingHasKey(front, cmd.key, sender, i);
      }
    } else {
      assert cmd.sender != sender;
      assert forall j :: 0 <= j < |added| ==> added[j].sender == cmd.sender;
      NoAnswers(added, sender);
    }
  }

  lemma {:induction false} PendingHasKey(cmds: seq<Command>, key: Key, sender: Sender, i: nat)
    requires OwnChannels(cmds) && i < |cmds| && !cmds[i].Write? && cmds[i].sender == sender
    requires sender in Pending(cmds, key)
    ensures cmds[i].key == key
    decreases |cmds|
  {
    var front, cmd := cmds[..|cmds| - 1], cmds[|cmds| - 1];
    FrontOwnChannels(cmds);
    if sender in Pending(front, key) {
      PendingCame(front, key, sender);
      var j :| 0 <= j < |front| && !front[j].Write? && front[j].sender == sender;
      assert cmds[j].sender == cmds[i].sender;
      PendingHasKey(front, key, sender, i);
    } else {
      assert cmds[|cmds| - 1].sender == sender;
    }
  }

  // ----- Plain reads -----

  /** Only a NotifyRead is ever queued. */
  lemma {:induction false} PendingNotified(cmds: seq<Command>, key: Key, sender: Sender) returns (i: nat)
    requires sender in Pending(cmds, key)
    ensures i < |cmds| && cmds[i].NotifyRead? && cmds[i].sender == sender
    decreases |cmds|
  {
    var front, cmd := cmds[..|cmds| - 1], cmds[|cmds| - 1];
    if sender in Pending(front, key) {
      i := PendingNotified(front, key, sender);
    } else {
      i := |cmds| - 1;
    }
  }

  /** Every Read is answered exactly once, with the last value written successfully before it, if any. */
  lemma {:induction false} ReadsAreAnswered(cmds: seq<Command>, i: nat)
    requires OwnChannels(cmds) && i < |cmds| && cmds[i].Read?
    ensures Answers(After(cmds).replies, cmds[i].sender) == [Latest(cmds[..i], cmds[i].key)]
    decreases |cmds|
  {
    var front, cmd := cmds[..|cmds| - 1], cmds[|cmds| - 1];
    var s, sender := After(front), cmds[i].sender;
    FrontOwnChannels(cmds);
    var added := After(cmds).replies[|s.replies|..];
    assert After(cmds).replies == s.replies + added;
    AnswersConcat(s.replies, added, sender);
    if i == |cmds| - 1 {
      forall j | 0 <= j < |s.replies| ensures s.replies[j].sender != sender {
        AnsweredCame(front, j);
      }
      NoAnswers(s.replies, sender);
      DbIsLatest(front, cmd.key);
      OneReply(added, sender);
    } else {
      ReadsAreAnswered(front, i);
      assert front[..i] == cmds[..i];
      NotAgain(cmds, i, added);
      NoAnswers(added, sender);
    }
  }

  lemma NotAgain(cmds: seq<Command>, i: nat, added: seq<Reply>)
    requires OwnChannels(cmds) && i < |cmds| - 1 && cmds[i].Read?
    requires |After(cmds[..|cmds| - 1]).replies| <= |After(cmds).replies|
    requires added == After(cmds).replies[|After(cmds[..|cmds| - 1]).replies|..]
    ensures forall j :: 0 <= j < |added| ==> added[j].sender != cmds[i].sender
  {
    var front, cmd := cmds[..|cmds| - 1], cmds[|cmds| - 1];
    if cmd.Write? {
      QueueIsPending(front, cmd.key);
      assert added == ToAll(Pending(front, cmd.key), cmd.value);
      if cmds[i].sender in Pending(front, cmd.key) {
        var j := PendingNotified(front, cmd.key, cmds[i].sender);
        assert false;
      }
    } else {
      assert forall j :: 0 <= j < |added| ==> added[j].sender == cmd.sender;
    }
  }

  // ----- Arrival order -----

  ghost predicate Before(replies: seq<Reply>, a: Sender, b: Sender) {
    exists p, q :: 0 <= p < q < |replies| && replies[p].sender == a && replies[q].sender == b
  }

  lemma {:induction false} HasAnswer(replies: seq<Reply>, sender: Sender) returns (p: nat)
    requires Answers(replies, sender) != []
    ensures p < |replies| && replies[p].sender == sender
    decreases |replies|
  {
    if replies[|replies| - 1].sender == sender {
      p := |replies| - 1;
    } else {
      p := HasAnswer(replies[..|replies| - 1], sender);
    }
  }

  lemma {:induction false} PendingInOrder(cmds: seq<Command>, i: nat, j: nat) returns (p: nat, q: nat)
    requires OwnChannels(cmds) && i < j < |cmds| && cmds[i].NotifyRead? && cmds[j].NotifyRead?
    requires cmds[i].key == cmds[j].key && Due(cmds, i).None? && Due(cmds, j).None?
    ensures var queue := Pending(cmds, cmds[i].key);
            p < q < |queue| && queue[p] == cmds[i].sender && queue[q] == cmds[j].sender
    decreases |cmds|
  {
    var front, cmd := cmds[..|cmds| - 1], cmds[|cmds| - 1];
    FrontOwnChannels(cmds);
    DueSnoc(cmds, i);
    if j == |cmds| - 1 {
      WaitsIffNothingDue(front, i);
      var queue := Pending(front, cmds[i].key);
      p :| 0 <= p < |queue| && queue[p] == cmds[i].sender;
      q := |queue|;
    } else {
      DueSnoc(cmds, j);
      p, q := PendingInOrder(front, i, j);
    }
  }

  lemma {:induction false} NothingDueMeansNothingThere(cmds: seq<Command>, i: nat, j: nat)
    requires i < j <= |cmds| && cmds[i].NotifyRead? && Due(cmds, i).None?
    ensures Latest(cmds[..j], cmds[i].key).None?
    ensures FirstWrite(cmds, cmds[i].key, j).None?
    decreases j
  {
    if j > i + 1 {
      NothingDueMeansNothingThere(cmds, i, j - 1);
      assert cmds[..j][..j - 1] == cmds[..j - 1];
    } else {
      assert cmds[..j][..i] == cmds[..i];
    }
  }

  lemma EarlierIsDueToo(cmds: seq<Command>, i: nat, j: nat)
    requires i < j < |cmds| && cmds[i].NotifyRead? && cmds[j].NotifyRead?
    requires cmds[i].key == cmds[j].key && Due(cmds, j).Some?
    ensures Due(cmds, i).Some?
  {
    if Due(cmds, i).None? {
      NothingDueMeansNothingThere(cmds, i, j);
      NothingDueMeansNothingThere(cmds, i, j + 1);
    }
  }

  lemma BeforeStays(front: seq<Reply>, all: seq<Reply>, a: Sender, b: Sender)
    requires front <= all && Before(front, a, b)
    ensures Before(all, a, b)
  {}

  /** Readers of one key are answered in the order in which they came. */
  lemma {:induction false} AnsweredInOrder(cmds: seq<Command>, i: nat, j: nat)
    requires OwnChannels(cmds) && i < j < |cmds| && cmds[i].NotifyRead? && cmds[j].NotifyRead?
    requires cmds[i].key == cmds[j].key && Due(cmds, j).Some?
    ensures Due(cmds, i).Some? && Before(After(cmds).replies, cmds[i].sender, cmds[j].sender)
    decreases |cmds|
  {
    EarlierIsDueToo(cmds, i, j);
    var front := cmds[..|cmds| - 1];
    var a, b := cmds[i].sender, cmds[j].sender;
    FrontOwnChannels(cmds);
    if j < |cmds| - 1 && Due(front, j).Some? {
      AnsweredInOrder(front, i, j);
      BeforeStays(After(front).replies, After(cmds).replies, a, b);
    } else if Due(front, i).Some? {
      NoLostWakeUp(front, i);
      var p := HasAnswer(After(front).replies, a);
      var q := AnsweredLast(cmds, j);
      assert After(cmds).replies[p].sender == a && After(cmds).replies[q].sender == b;
    } else {
      DueSnoc(cmds, i);
      AnsweredTogether(cmds, i, j);
    }
  }

  lemma AnsweredTogether(cmds: seq<Command>, i: nat, j: nat)
    requires OwnChannels(cmds) && i < j < |cmds| - 1 && cmds[i].NotifyRead? && cmds[j].NotifyRead?
    requires cmds[i].key == cmds[j].key && Due(cmds, i).Some?
    requires Due(cmds[..|cmds| - 1], i).None? && Due(cmds[..|cmds| - 1], j).None?
    ensures Before(After(cmds).replies, cmds[i].sender, cmds[j].sender)
  {
    var front, cmd := cmds[..|cmds| - 1], cmds[|cmds| - 1];
    var s := After(front);
    DueSnoc(cmds, i);
    FrontOwnChannels(cmds);
    var p, q := PendingInOrder(front, i, j);
    QueueIsPending(front, cmd.key);
    assert After(cmds).replies[|s.replies| + p].sender == cmds[i].sender;
    assert After(cmds).replies[|s.replies| + q].sender == cmds[j].sender;
  }

  lemma AnsweredLast(cmds: seq<Command>, j: nat) returns (q: nat)
    requires OwnChannels(cmds) && j < |cmds| && cmds[j].NotifyRead? && Due(cmds, j).Some?
    requires j < |cmds| - 1 ==> Due(cmds[..|cmds| - 1], j).None?
    ensures |After(cmds[..|cmds| - 1]).replies| <= q < |After(cmds).replies|
    ensures After(cmds).replies[q].sender == cmds[j].sender
  {
    var front, cmd := cmds[..|cmds| - 1], cmds[|cmds| - 1];
    var s := After(front);
    FrontOwnChannels(cmds);
    if j == |cmds| - 1 {
      DbIsLatest(front, cmd.key);
      assert FirstWrite(cmds, cmd.key, |cmds|).None?;
      q := |s.replies|;
    } else {
      DueSnoc(cmds, j);
      WaitsIffNothingDue(front, j);
      QueueIsPending(front, cmd.key);
      var queue := Pending(front, cmd.key);
      var p :| 0 <= p < |queue| && queue[p] == cmds[j].sender;
      q := |s.replies| + p;
    }
  }

  // ----- The loop -----

  class Store {
    var db: map<Key, Value>
    var obligations: map<Key, seq<Sender>>
    var replies: seq<Reply>

    ghost function Now(): State
      reads this
    {
      State(db, obligations, replies)
    }

    constructor ()
      ensures Now() == After([])
    {
      db, obligations, replies := map[], map[], [];
    }

    method HandleWrite(key: Key, value: Value, kept: bool)
      modifies this
      ensures Now() == Serve(old(Now()), Write(key, value, kept))
    {
      if kept {
        db := db[key := value];
      }
      if key in obligations {
        var senders := obligations[key];
        ghost var all, before := senders, replies;
        obligations := obligations - {key};
        while senders != []
          invariant |senders| <= |all| && senders == all[|all| - |senders|..]
          invariant replies == before + ToAll(all, value)[..|all| - |senders|]
          invariant db == (if kept then old(db)[key := value] else old(db)) && obligations == old(obligations) - {key}
        {
          var s := senders[0];
          senders := senders[1..];
          replies := replies + [Reply(s, Some(value))];
        }
        assert ToAll(all, value)[..|all|] == ToAll(all, value);
      }
      assert replies == old(replies) + ToAll(Queue(old(obligations), key), value);
      assert obligations == old(obligations) - {key};
    }

    method HandleRead(key: Key, sender: Sender)
      modifies this`replies
      ensures Now() == Serve(old(Now()), Read(key, sender))
    {
      var response := if key in db then Some(db[key]) else None;
      replies := replies + [Reply(sender, response)];
    }

    method HandleNotifyRead(key: Key, sender: Sender)
      modifies this`replies, this`obligations
      ensures Now() == Serve(old(Now()), NotifyRead(key, sender))
    {
      if key in db {
        replies := replies + [Reply(sender, Some(db[key]))];
      } else {
        var queue := if key in obligations then obligations[key] else [];
        obligations := obligations[key := queue + [sender]];
      }
    }

    /** The loop: from a fresh store, it has always done what its commands say so far. */
    method Run(cmds: seq<Command>)
      requires Now() == After([])
      modifies this
      ensures Now() == After(cmds)
    {
      for i := 0 to |cmds|
        invariant Now() == After(cmds[..i])
      {
        assert cmds[..i + 1][..i] == cmds[..i];
        match cmds[i]
        case Write(key, value, kept) => HandleWrite(key, value, kept);
        case Read(key, sender) => HandleRead(key, sender);
        case NotifyRead(key, sender) => HandleNotifyRead(key, sender);
      }
      assert cmds[..|cmds|] == cmds;
    }
  }
}
