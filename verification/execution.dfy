/** Executing message groups: logical time order and independence from the order of accounts. */
module Execution {
  import opened Sequences
  import opened Words
  import opened Wrappers

  type AccountId = nat

  type Lt = nat

  // Account states are told apart by a number.
  type State = nat

  datatype Message = Message(number: nat, external: bool)

  datatype Executed = Executed(lt: Lt, nextLt: Lt, gasUsed: nat)

  datatype TxOutcome = Output(state: State, tx: Executed) | Skipped | Fatal

  /** The transaction executor: a state, a message and a least logical time. */
  datatype Executor = Executor(isEmpty: State -> bool, run: (State, Message, Lt) -> TxOutcome)

  /** What the executor promises: the transaction is not before the least time, and the next time is after it. */
  ghost predicate Lawful(e: Executor) {
    forall s: State, m: Message, lt: Lt :: e.run(s, m, lt).Output? ==> lt <= e.run(s, m, lt).tx.lt < e.run(s, m, lt).tx.nextLt
  }

  datatype Account = Account(state: State, transactions: map<Lt, Executed>, minNextLt: Lt)

  /** Recorded transactions lie below the account's next logical time. */
  ghost predicate AccountOk(a: Account) {
    forall lt :: lt in a.transactions ==> lt < a.minNextLt && a.transactions[lt].lt == lt
  }

  function AlignMinLt(a: Account, lt: Lt): Lt {
    if lt < a.minNextLt then a.minNextLt else lt
  }

  function ApplyTransaction(a: Account, s: State, tx: Executed): Account {
    Account(s, a.transactions[tx.lt := tx], tx.nextLt)
  }

  /** A message without a result was refused by the executor. */
  datatype AccountRun = AccountRun(account: Account, txs: seq<Option<Executed>>, skipped: nat)

  /** One message of an account; None is a fatal error. */
  function RunMessage(e: Executor, r: AccountRun, m: Message, minLt: Lt, empty: bool): Option<AccountRun> {
    if m.external && empty then Some(r.(skipped := r.skipped + 1))
    else
      match e.run(r.account.state, m, AlignMinLt(r.account, minLt))
      case Output(s, tx) =>
        Some(AccountRun(ApplyTransaction(r.account, s, tx), r.txs + [Some(tx)], r.skipped))
      case Skipped => if m.external then Some(r.(txs := r.txs + [None])) else None
      case Fatal => None
  }

  function RunMessages(e: Executor, a: Account, msgs: seq<Message>, minLt: Lt): Option<AccountRun> {
    if msgs == [] then Some(AccountRun(a, [], 0))
    else
      var r := RunMessages(e, a, msgs[..|msgs| - 1], minLt);
      if r.None? then None else RunMessage(e, r.value, msgs[|msgs| - 1], minLt, e.isEmpty(a.state))
  }

  // --- what a run is, message by message ---

  /** Where an account stands between two messages: its state and its next logical time. */
  datatype Point = Point(state: State, lt: Lt)

  /** What a message gets: nothing if it is skipped, else its transaction or a refusal. */
  type Answer = Option<Option<Executed>>

  /** One message at a point: skipped, executed in the point's own state, or refused. */
  ghost predicate Moves(e: Executor, empty: bool, m: Message, minLt: Lt, p: Point, q: Point, answer: Answer) {
    if m.external && empty then q == p && answer == None
    else
      var o := e.run(p.state, m, if p.lt < minLt then minLt else p.lt);
      || (o.Output? && q == Point(o.state, o.tx.nextLt) && answer == Some(Some(o.tx)))
      || (o.Skipped? && m.external && q == p && answer == Some(None))
  }

  /** A message no run survives. */
  ghost predicate Breaks(e: Executor, empty: bool, m: Message, minLt: Lt, p: Point) {
    && !(m.external && empty)
    && var o := e.run(p.state, m, if p.lt < minLt then minLt else p.lt);
       o.Fatal? || (o.Skipped? && !m.external)
  }

  ghost predicate MovesAt(e: Executor, a: Account, msgs: seq<Message>, minLt: Lt, points: seq<Point>, answers: seq<Answer>, i: int)
  {
    && 0 <= i < |msgs| && i + 1 < |points| && i < |answers|
    && Moves(e, e.isEmpty(a.state), msgs[i], minLt, points[i], points[i + 1], answers[i])
  }

  /** The points and answers of a list of messages, from the account's own point on. */
  ghost predicate Traced(e: Executor, a: Account, msgs: seq<Message>, minLt: Lt, points: seq<Point>, answers: seq<Answer>) {
    && |points| == |msgs| + 1 && |answers| == |msgs| && points[0] == Point(a.state, a.minNextLt)
    && forall i :: 0 <= i < |msgs| ==> MovesAt(e, a, msgs, minLt, points, answers, i)
  }

  /** How many messages before the i-th got an answer. */
  ghost function Place(answers: seq<Answer>, i: nat): nat
    requires i <= |answers|
  {
    |set j | 0 <= j < i && answers[j].Some?|
  }

  /** The recorded results are the answers, in the order of their messages. */
  ghost predicate Collects(answers: seq<Answer>, txs: seq<Option<Executed>>) {
    && |txs| == Place(answers, |answers|)
    && forall i :: 0 <= i < |answers| && answers[i].Some? ==>
         Place(answers, i) < |txs| && txs[Place(answers, i)] == answers[i].value
  }

  ghost predicate Ends(points: seq<Point>, answers: seq<Answer>, r: AccountRun) {
    && points != [] && points[|points| - 1] == Point(r.account.state, r.account.minNextLt)
    && Collects(answers, r.txs) && r.skipped + |r.txs| == |answers|
  }

  ghost predicate RunTraced(e: Executor, a: Account, msgs: seq<Message>, minLt: Lt, r: AccountRun) {
    exists points, answers :: Traced(e, a, msgs, minLt, points, answers) && Ends(points, answers, r)
  }

  ghost predicate RunBroken(e: Executor, a: Account, msgs: seq<Message>, minLt: Lt) {
    exists n: nat, points, answers :: BrokenAt(e, a, msgs, minLt, n, points, answers)
  }

  ghost predicate BrokenAt(e: Executor, a: Account, msgs: seq<Message>, minLt: Lt, n: nat, points: seq<Point>, answers: seq<Answer>)
  {
    && n < |msgs| && Traced(e, a, msgs[..n], minLt, points, answers)
    && Breaks(e, e.isEmpty(a.state), msgs[n], minLt, points[n])
  }

  lemma TracedOneMore(e: Executor, a: Account, msgs: seq<Message>, minLt: Lt, points: seq<Point>, answers: seq<Answer>,
                      m: Message, q: Point, answer: Answer)
    requires Traced(e, a, msgs, minLt, points, answers)
    requires Moves(e, e.isEmpty(a.state), m, minLt, points[|msgs|], q, answer)
    ensures Traced(e, a, msgs + [m], minLt, points + [q], answers + [answer])
  {
    var (ms, ps, xs) := (msgs + [m], points + [q], answers + [answer]);
    forall i | 0 <= i < |ms|
      ensures MovesAt(e, a, ms, minLt, ps, xs, i)
    {
      if i < |msgs| {
        assert MovesAt(e, a, msgs, minLt, points, answers, i);
      }
    }
  }

  lemma PlacePrefix(answers: seq<Answer>, more: seq<Answer>, i: nat)
    requires i <= |answers|
    ensures Place(answers + more, i) == Place(answers, i)
  {
    assert (set j | 0 <= j < i && (answers + more)[j].Some?) == (set j | 0 <= j < i && answers[j].Some?);
  }

  lemma PlaceNext(answers: seq<Answer>, i: nat)
    requires i < |answers|
    ensures Place(answers, i + 1) == Place(answers, i) + if answers[i].Some? then 1 else 0
  {
    assert (set j | 0 <= j < i + 1 && answers[j].Some?)
      == (set j | 0 <= j < i && answers[j].Some?) + if answers[i].Some? then {i} else {};
  }

  lemma CollectsOneMore(answers: seq<Answer>, txs: seq<Option<Executed>>, answer: Answer)
    requires Collects(answers, txs)
    ensures Collects(answers + [answer], if answer.Some? then txs + [answer.value] else txs)
  {
    var (xs, n) := (answers + [answer], |answers|);
    PlacePrefix(answers, [answer], n);
    PlaceNext(xs, n);
    forall i | 0 <= i < |xs| && xs[i].Some?
      ensures var ts := if answer.Some? then txs + [answer.value] else txs;
        Place(xs, i) < |ts| && ts[Place(xs, i)] == xs[i].value
    {
      PlacePrefix(answers, [answer], i);
    }
  }

  lemma StepTraced(e: Executor, a: Account, msgs: seq<Message>, minLt: Lt, r: AccountRun, m: Message)
    requires RunTraced(e, a, msgs, minLt, r)
    ensures var next := RunMessage(e, r, m, minLt, e.isEmpty(a.state));
      if next.Some? then RunTraced(e, a, msgs + [m], minLt, next.value)
      else Breaks(e, e.isEmpty(a.state), m, minLt, Point(r.account.state, r.account.minNextLt))
  {
    var points, answers :| Traced(e, a, msgs, minLt, points, answers) && Ends(points, answers, r);
    var next := RunMessage(e, r, m, minLt, e.isEmpty(a.state));
    if next.Some? {
      var q := Point(next.value.account.state, next.value.account.minNextLt);
      var answer: Answer := if next.value.txs == r.txs then None else Some(next.value.txs[|r.txs|]);
      TracedOneMore(e, a, msgs, minLt, points, answers, m, q, answer);
      CollectsOneMore(answers, r.txs, answer);
      assert Ends(points + [q], answers + [answer], next.value);
    }
  }

  lemma StartTraced(e: Executor, a: Account, minLt: Lt)
    ensures RunTraced(e, a, [], minLt, AccountRun(a, [], 0))
  {
    assert Place([], 0) == 0;
    assert Traced(e, a, [], minLt, [Point(a.state, a.minNextLt)], []) && Ends([Point(a.state, a.minNextLt)], [], AccountRun(a, [], 0));
  }

  lemma StepBreaks(e: Executor, a: Account, msgs: seq<Message>, minLt: Lt, n: nat, r: AccountRun)
    requires n < |msgs| && RunTraced(e, a, msgs[..n], minLt, r)
    requires Breaks(e, e.isEmpty(a.state), msgs[n], minLt, Point(r.account.state, r.account.minNextLt))
    ensures RunBroken(e, a, msgs, minLt)
  {
    var points, answers :| Traced(e, a, msgs[..n], minLt, points, answers) && Ends(points, answers, r);
    assert BrokenAt(e, a, msgs, minLt, n, points, answers);
  }

  lemma StepIs(e: Executor, a: Account, msgs: seq<Message>, minLt: Lt, i: nat, r: AccountRun)
    requires i < |msgs| && RunMessages(e, a, msgs[..i], minLt) == Some(r) && RunTraced(e, a, msgs[..i], minLt, r)
    ensures var next := RunMessage(e, r, msgs[i], minLt, e.isEmpty(a.state));
      if next.Some? then RunMessages(e, a, msgs[..i + 1], minLt) == next && RunTraced(e, a, msgs[..i + 1], minLt, next.value)
      else RunMessages(e, a, msgs, minLt).None? && RunBroken(e, a, msgs, minLt)
  {
    assert msgs[..i + 1] == msgs[..i] + [msgs[i]];
    assert msgs[..i + 1][..i] == msgs[..i];
    StepTraced(e, a, msgs[..i], minLt, r, msgs[i]);
    if RunMessage(e, r, msgs[i], minLt, e.isEmpty(a.state)).None? {
      StepBreaks(e, a, msgs, minLt, i, r);
      Fails(e, a, msgs, minLt, i + 1);
    }
  }

  /** Whether the account is empty is asked once, before its first message. */
  method ExecuteMessages(e: Executor, a: Account, msgs: seq<Message>, minLt: Lt) returns (r: Option<AccountRun>)
    ensures r == RunMessages(e, a, msgs, minLt)
    ensures if r.Some? then RunTraced(e, a, msgs, minLt, r.value) else RunBroken(e, a, msgs, minLt)
  {
    var empty := e.isEmpty(a.state);
    r := Some(AccountRun(a, [], 0));
    StartTraced(e, a, minLt);
    for i := 0 to |msgs|
      invariant r.Some? && r == RunMessages(e, a, msgs[..i], minLt) && RunTraced(e, a, msgs[..i], minLt, r.value)
    {
      StepIs(e, a, msgs, minLt, i, r.value);
      r := RunMessage(e, r.value, msgs[i], minLt, empty);
      if r.None? {
        return;
      }
    }
    assert msgs[..|msgs|] == msgs;
  }

  lemma {:induction false} Fails(e: Executor, a: Account, msgs: seq<Message>, minLt: Lt, n: nat)
    requires n <= |msgs| && RunMessages(e, a, msgs[..n], minLt).None?
    ensures RunMessages(e, a, msgs, minLt).None?
    decreases |msgs| - n
  {
    if n == |msgs| {
      assert msgs[..n] == msgs;
    } else {
      assert msgs[..n + 1][..n] == msgs[..n];
      Fails(e, a, msgs, minLt, n + 1);
    }
  }

  lemma {:induction false} RunIsTraced(e: Executor, a: Account, msgs: seq<Message>, minLt: Lt)
    requires RunMessages(e, a, msgs, minLt).Some?
    ensures RunTraced(e, a, msgs, minLt, RunMessages(e, a, msgs, minLt).value)
  {
    if msgs == [] {
      StartTraced(e, a, minLt);
    } else {
      var n := |msgs| - 1;
      RunIsTraced(e, a, msgs[..n], minLt);
      StepTraced(e, a, msgs[..n], minLt, RunMessages(e, a, msgs[..n], minLt).value, msgs[n]);
      assert msgs[..n] + [msgs[n]] == msgs;
    }
  }

  // --- one account ---

  /** Every transaction starts at or after the one before it ends. */
  ghost predicate InLtOrder(txs: seq<Option<Executed>>, from: Lt, to: Lt) {
    && (forall i :: 0 <= i < |txs| && txs[i].Some? ==> from <= txs[i].value.lt < txs[i].value.nextLt <= to)
    && (forall i, j :: 0 <= i < j < |txs| && txs[i].Some? && txs[j].Some? ==> txs[i].value.nextLt <= txs[j].value.lt)
  }

  /** The old transactions are kept and exactly the new ones are added. */
  ghost predicate Recorded(before: Account, after: Account, txs: seq<Option<Executed>>) {
    && (forall lt :: lt in before.transactions ==> lt in after.transactions && after.transactions[lt] == before.transactions[lt])
    && (forall i :: 0 <= i < |txs| && txs[i].Some? ==>
          txs[i].value.lt in after.transactions && after.transactions[txs[i].value.lt] == txs[i].value)
    && (forall lt :: lt in after.transactions && lt !in before.transactions ==>
          before.minNextLt <= lt && Some(after.transactions[lt]) in txs)
    && before.minNextLt <= after.minNextLt
  }

  ghost predicate RunOk(a: Account, minLt: Lt, r: AccountRun) {
    && AccountOk(r.account) && Recorded(a, r.account, r.txs)
    && InLtOrder(r.txs, AlignMinLt(a, minLt), r.account.minNextLt)
  }

  lemma TxRecorded(a: Account, r: Account, txs: seq<Option<Executed>>, s: State, tx: Executed)
    requires Recorded(a, r, txs) && AccountOk(r) && r.minNextLt <= tx.lt < tx.nextLt
    ensures Recorded(a, ApplyTransaction(r, s, tx), txs + [Some(tx)]) && AccountOk(ApplyTransaction(r, s, tx))
  {
    var (after, more) := (ApplyTransaction(r, s, tx), txs + [Some(tx)]);
    assert tx.lt !in r.transactions;
    forall lt | lt in after.transactions && lt !in a.transactions
      ensures a.minNextLt <= lt && Some(after.transactions[lt]) in more
    {
      if lt == tx.lt {
        assert more[|txs|] == Some(tx);
      } else {
        assert Some(r.transactions[lt]) in txs;
      }
    }
  }

  lemma TxOrdered(txs: seq<Option<Executed>>, from: Lt, to: Lt, tx: Executed)
    requires InLtOrder(txs, from, to) && from <= tx.lt < tx.nextLt && to <= tx.lt
    ensures InLtOrder(txs + [Some(tx)], from, tx.nextLt)
  {
  }

  lemma TxStep(a: Account, minLt: Lt, r: AccountRun, s: State, tx: Executed)
    requires RunOk(a, minLt, r) && AlignMinLt(r.account, minLt) <= tx.lt < tx.nextLt
    ensures RunOk(a, minLt, AccountRun(ApplyTransaction(r.account, s, tx), r.txs + [Some(tx)], r.skipped))
  {
    TxRecorded(a, r.account, r.txs, s, tx);
    TxOrdered(r.txs, AlignMinLt(a, minLt), r.account.minNextLt, tx);
  }

  lemma RefusedRecorded(a: Account, r: Account, txs: seq<Option<Executed>>)
    requires Recorded(a, r, txs)
    ensures Recorded(a, r, txs + [None])
  {
    assert forall x :: x in txs ==> x in txs + [None];
  }

  lemma RefusedOrdered(txs: seq<Option<Executed>>, from: Lt, to: Lt)
    requires InLtOrder(txs, from, to)
    ensures InLtOrder(txs + [None], from, to)
  {
  }

  lemma RefusedStep(a: Account, minLt: Lt, r: AccountRun)
    requires RunOk(a, minLt, r)
    ensures RunOk(a, minLt, r.(txs := r.txs + [None]))
  {
    RefusedRecorded(a, r.account, r.txs);
    RefusedOrdered(r.txs, AlignMinLt(a, minLt), r.account.minNextLt);
  }

  lemma RunOkStep(e: Executor, a: Account, r: AccountRun, m: Message, minLt: Lt, empty: bool)
    requires Lawful(e) && RunOk(a, minLt, r) && RunMessage(e, r, m, minLt, empty).Some?
    ensures RunOk(a, minLt, RunMessage(e, r, m, minLt, empty).value)
  {
    if !(m.external && empty) {
      match e.run(r.account.state, m, AlignMinLt(r.account, minLt))
      case Output(s, tx) => TxStep(a, minLt, r, s, tx);
      case Skipped => RefusedStep(a, minLt, r);
    }
  }

  /** An account's transactions come in strict logical time order, none before the group's least time,
    and no recorded transaction is overwritten. */
  lemma {:induction false} RunIsOk(e: Executor, a: Account, msgs: seq<Message>, minLt: Lt)
    requires Lawful(e) && AccountOk(a) && RunMessages(e, a, msgs, minLt).Some?
    ensures RunOk(a, minLt, RunMessages(e, a, msgs, minLt).value)
  {
    if msgs != [] {
      var prefix := msgs[..|msgs| - 1];
      RunIsOk(e, a, prefix, minLt);
      RunOkStep(e, a, RunMessages(e, a, prefix, minLt).value, msgs[|msgs| - 1], minLt, e.isEmpty(a.state));
    }
  }

  function Externals(msgs: seq<Message>): nat {
    if msgs == [] then 0 else Externals(msgs[..|msgs| - 1]) + if msgs[|msgs| - 1].external then 1 else 0
  }

  /** Every message is answered once: executed or refused, or skipped when it is external and the account was empty. */
  lemma {:induction false} EveryMessageAnswered(e: Executor, a: Account, msgs: seq<Message>, minLt: Lt)
    requires RunMessages(e, a, msgs, minLt).Some?
    ensures var r := RunMessages(e, a, msgs, minLt).value;
      |r.txs| + r.skipped == |msgs| && r.skipped == if e.isEmpty(a.state) then Externals(msgs) else 0
  {
    if msgs != [] {
      EveryMessageAnswered(e, a, msgs[..|msgs| - 1], minLt);
    }
  }

  // --- groups ---

  /** Loaded accounts and the least logical time for the next group; `base` are the accounts of the previous state. */
  datatype Manager = Manager(items: map<AccountId, Account>, minNextLt: Lt, base: map<AccountId, State>, emptyState: State)

  ghost predicate ManagerOk(m: Manager) {
    forall id :: id in m.items ==> AccountOk(m.items[id])
  }

  /** A cached account, or a fresh one from the previous state, or an empty one. */
  function GetAccount(m: Manager, id: AccountId): Account {
    if id in m.items then m.items[id]
    else Account(if id in m.base then m.base[id] else m.emptyState, map[], 0)
  }

  type Group = map<AccountId, seq<Message>>

  /** Weights of the work estimate. */
  datatype WuParams = WuParams(prepare: nat, execute: nat, delimiter: nat, subgroupSize: nat)

  const U128_MAX: nat := 0xFFFF_FFFF_FFFF_FFFF_FFFF_FFFF_FFFF_FFFF

  function AtMost(n: nat, max: nat): nat {
    if n < max then n else max
  }

  function Product(a: nat, b: nat): nat {
    a * b
  }

  function GasUnits(w: WuParams, gas: nat): nat
    requires w.delimiter > 0
  {
    AtMost(Product(gas, w.execute), U64_MAX) / w.delimiter
  }

  /** Work units of an account's transactions, saturating at each step. */
  function WorkUnits(w: WuParams, txs: seq<Option<Executed>>): nat
    requires w.delimiter > 0
  {
    if txs == [] then 0
    else
      var wu := WorkUnits(w, txs[..|txs| - 1]);
      match txs[|txs| - 1]
      case None => wu
      case Some(tx) =>
        AtMost(AtMost(wu + w.prepare, U64_MAX) + GasUnits(w, tx.gasUsed), U64_MAX)
  }

  function Errors(txs: seq<Option<Executed>>): nat {
    if txs == [] then 0 else Errors(txs[..|txs| - 1]) + if txs[|txs| - 1].None? then 1 else 0
  }

  function MaxNextLt(txs: seq<Option<Executed>>, lt: Lt): Lt {
    if txs == [] then lt
    else
      var max := MaxNextLt(txs[..|txs| - 1], lt);
      match txs[|txs| - 1]
      case None => max
      case Some(tx) => if max < tx.nextLt then tx.nextLt else max
  }

  /** The greatest next time of the transactions, or the given one if none is greater. */
  ghost predicate IsNext(txs: seq<Option<Executed>>, lt: Lt, next: Lt) {
    && lt <= next && (forall i :: 0 <= i < |txs| && txs[i].Some? ==> txs[i].value.nextLt <= next)
    && (next == lt || exists i :: 0 <= i < |txs| && txs[i].Some? && txs[i].value.nextLt == next)
  }

  lemma {:induction false} MaxNextLtIs(txs: seq<Option<Executed>>, lt: Lt)
    ensures IsNext(txs, lt, MaxNextLt(txs, lt))
  {
    if txs != [] {
      var (n, rest) := (|txs| - 1, txs[..|txs| - 1]);
      MaxNextLtIs(rest, lt);
      assert forall i :: 0 <= i < n ==> txs[i] == rest[i];
      if MaxNextLt(txs, lt) != lt && MaxNextLt(txs, lt) == MaxNextLt(rest, lt) {
        var i :| 0 <= i < |rest| && rest[i].Some? && rest[i].value.nextLt == MaxNextLt(rest, lt);
        assert txs[i].Some?;
      }
    }
  }

  /** The places of the refused messages. */
  ghost function Refused(txs: seq<Option<Executed>>): set<nat> {
    set i | 0 <= i < |txs| && txs[i].None?
  }

  lemma {:induction false} ErrorsIs(txs: seq<Option<Executed>>)
    ensures Errors(txs) == |Refused(txs)|
  {
    if txs == [] {
      assert Refused(txs) == {};
    } else {
      var n := |txs| - 1;
      ErrorsIs(txs[..n]);
      assert Refused(txs) == Refused(txs[..n]) + if txs[n].None? then {n} else {};
    }
  }

  /** What one transaction costs when nothing overflows, gas alone being cut to 64 bits. */
  function Cost(w: WuParams, tx: Executed): nat
    requires w.delimiter > 0
  {
    w.prepare + AtMost(Product(tx.gasUsed, w.execute), 0xFFFF_FFFF_FFFF_FFFF) / w.delimiter
  }

  function TotalCost(w: WuParams, txs: seq<Option<Executed>>): nat
    requires w.delimiter > 0
  {
    if txs == [] then 0 else (if txs[0].Some? then Cost(w, txs[0].value) else 0) + TotalCost(w, txs[1..])
  }

  lemma {:induction false} TotalCostSnoc(w: WuParams, txs: seq<Option<Executed>>, tx: Option<Executed>)
    requires w.delimiter > 0
    ensures TotalCost(w, txs + [tx]) == TotalCost(w, txs) + if tx.Some? then Cost(w, tx.value) else 0
  {
    if txs == [] {
      assert txs + [tx] == [tx];
    } else {
      assert (txs + [tx])[1..] == txs[1..] + [tx];
      TotalCostSnoc(w, txs[1..], tx);
    }
  }

  /** Saturating at each step is saturating once. */
  lemma {:induction false} WorkUnitsIs(w: WuParams, txs: seq<Option<Executed>>)
    requires w.delimiter > 0
    ensures WorkUnits(w, txs) == AtMost(TotalCost(w, txs), 0xFFFF_FFFF_FFFF_FFFF)
  {
    if txs != [] {
      var n := |txs| - 1;
      WorkUnitsIs(w, txs[..n]);
      TotalCostSnoc(w, txs[..n], txs[n]);
      assert txs[..n] + [txs[n]] == txs;
    }
  }

  // --- sums and maxima over accounts ---

  ghost function Sum(f: AccountId -> nat, ids: set<AccountId>): nat {
    if ids == {} then 0 else
      var id :| id in ids;
      f(id) + Sum(f, ids - {id})
  }

  lemma {:induction false} SumAdd(f: AccountId -> nat, ids: set<AccountId>, id: AccountId)
    requires id !in ids
    ensures Sum(f, ids + {id}) == Sum(f, ids) + f(id)
    decreases |ids|
  {
    var all := ids + {id};
    var x :| x in all && Sum(f, all) == f(x) + Sum(f, all - {x});
    if x == id {
      assert all - {x} == ids;
    } else {
      assert all - {x} == ids - {x} + {id};
      SumAdd(f, ids - {x}, id);
      assert ids - {x} + {x} == ids;
      SumAdd(f, ids - {x}, x);
    }
  }

  /** The greatest value of a function over the accounts, or the given floor. */
  ghost predicate IsMax(f: AccountId -> nat, ids: set<AccountId>, floor: nat, max: nat) {
    && floor <= max && (forall id :: id in ids ==> f(id) <= max)
    && (max == floor || exists id :: id in ids && f(id) == max)
  }

  function Max(a: nat, b: nat): nat {
    if a < b then b else a
  }

  lemma IsMaxAdd(f: AccountId -> nat, ids: set<AccountId>, floor: nat, max: nat, id: AccountId)
    requires IsMax(f, ids, floor, max)
    ensures IsMax(f, ids + {id}, floor, Max(max, f(id)))
  {
  }

  // --- the group as a whole ---

  ghost predicate AllRun(e: Executor, m: Manager, group: Group) {
    forall id :: id in group ==> RunOf(e, m, group, id).Some?
  }

  /** Each account runs from the state before the group. */
  function RunOf(e: Executor, m: Manager, group: Group, id: AccountId): Option<AccountRun>
    requires id in group
  {
    RunMessages(e, GetAccount(m, id), group[id], m.minNextLt)
  }

  datatype Totals = Totals(errors: nat, skipped: nat, maxVert: nat, wu: nat)

  /** The runs of a group by account. */
  type Runs = AccountId -> AccountRun

  ghost function RunsOf(e: Executor, m: Manager, group: Group): Runs {
    (id: AccountId) =>
      if id in group && RunOf(e, m, group, id).Some? then RunOf(e, m, group, id).value
      else AccountRun(GetAccount(m, id), [], 0)
  }

  lemma RunsOfAt(e: Executor, m: Manager, group: Group, id: AccountId)
    ensures id in group && RunOf(e, m, group, id).Some? ==> RunsOf(e, m, group)(id) == RunOf(e, m, group, id).value
  {
  }

  /** What is counted for each account. */
  datatype Measures = Measures(
    errors: AccountId -> nat, skipped: AccountId -> nat, vert: AccountId -> nat, wu: AccountId -> nat)

  ghost function MeasuresOf(w: WuParams, runs: Runs): Measures
    requires w.delimiter > 0
  {
    Measures(
      (id: AccountId) => Errors(runs(id).txs),
      (id: AccountId) => runs(id).skipped,
      (id: AccountId) => |runs(id).txs|,
      (id: AccountId) => WorkUnits(w, runs(id).txs))
  }

  ghost function NextOf(runs: Runs): AccountId -> nat {
    (id: AccountId) => MaxNextLt(runs(id).txs, 0)
  }

  /** The accounts of `ids` carry their run's result, all others are as before. */
  ghost predicate Saved(runs: Runs, before: map<AccountId, Account>, ids: set<AccountId>, items: map<AccountId, Account>) {
    && (forall id :: id in items <==> id in before || id in ids)
    && (forall id :: id in items ==> items[id] == if id in ids then runs(id).account else before[id])
  }

  ghost predicate Counted(f: Measures, ids: set<AccountId>, t: Totals) {
    && t.errors == Sum(f.errors, ids)
    && t.skipped == Sum(f.skipped, ids)
    && IsMax(f.vert, ids, 0, t.maxVert)
    && t.wu == AtMost(Sum(f.wu, ids), U128_MAX)
  }

  function Plus(t: Totals, errors: nat, skipped: nat, vert: nat, wu: nat): Totals {
    Totals(t.errors + errors, t.skipped + skipped, Max(t.maxVert, vert), AtMost(t.wu + wu, U128_MAX))
  }

  lemma CountedAdd(f: Measures, ids: set<AccountId>, t: Totals, id: AccountId)
    requires Counted(f, ids, t) && id !in ids
    ensures Counted(f, ids + {id}, Plus(t, f.errors(id), f.skipped(id), f.vert(id), f.wu(id)))
  {
    SumAdd(f.errors, ids, id);
    SumAdd(f.skipped, ids, id);
    SumAdd(f.wu, ids, id);
    IsMaxAdd(f.vert, ids, 0, t.maxVert, id);
  }

  /** What the accounts of `ids` leave behind, said without naming an order. */
  ghost predicate Done(runs: Runs, w: WuParams, m: Manager, ids: set<AccountId>, m': Manager, t: Totals)
    requires w.delimiter > 0
  {
    && m'.base == m.base && m'.emptyState == m.emptyState
    && Saved(runs, m.items, ids, m'.items)
    && IsMax(NextOf(runs), ids, m.minNextLt, m'.minNextLt)
    && Counted(MeasuresOf(w, runs), ids, t)
  }

  lemma {:induction false} MaxNextLtFrom(txs: seq<Option<Executed>>, lt: Lt)
    ensures MaxNextLt(txs, lt) == Max(lt, MaxNextLt(txs, 0))
  {
    if txs != [] {
      MaxNextLtFrom(txs[..|txs| - 1], lt);
    }
  }

  /** Adds one account's run to the manager and the totals, transaction by transaction. */
  method SaveSubgroup(w: WuParams, lt: Lt, txs: seq<Option<Executed>>) returns (lt': Lt, errors: nat, wu: nat)
    requires w.delimiter > 0
    ensures lt' == MaxNextLt(txs, lt) && errors == Errors(txs) && wu == WorkUnits(w, txs)
    ensures IsNext(txs, lt, lt') && errors == |Refused(txs)| && wu == AtMost(TotalCost(w, txs), 0xFFFF_FFFF_FFFF_FFFF)
  {
    MaxNextLtIs(txs, lt);
    ErrorsIs(txs);
    WorkUnitsIs(w, txs);
    lt', errors, wu := lt, 0, 0;
    for i := 0 to |txs|
      invariant lt' == MaxNextLt(txs[..i], lt) && errors == Errors(txs[..i]) && wu == WorkUnits(w, txs[..i])
    {
      assert txs[..i + 1][..i] == txs[..i];
      match txs[i] {
        case None => errors := errors + 1;
        case Some(tx) =>
          lt' := Max(lt', tx.nextLt);
          wu := AtMost(AtMost(wu + w.prepare, U64_MAX) + GasUnits(w, tx.gasUsed), U64_MAX);
      }
    }
    assert txs[..|txs|] == txs;
  }

  lemma SavedAdd(runs: Runs, before: map<AccountId, Account>, ids: set<AccountId>, items: map<AccountId, Account>, id: AccountId)
    requires Saved(runs, before, ids, items)
    ensures Saved(runs, before, ids + {id}, items[id := runs(id).account])
  {
  }

  lemma DoneAdd(runs: Runs, w: WuParams, m: Manager, ids: set<AccountId>, m': Manager, t: Totals, id: AccountId)
    requires w.delimiter > 0 && Done(runs, w, m, ids, m', t) && id !in ids
    ensures var r := runs(id);
      Done(runs, w, m, ids + {id},
           m'.(items := m'.items[id := r.account], minNextLt := MaxNextLt(r.txs, m'.minNextLt)),
           Plus(t, Errors(r.txs), r.skipped, |r.txs|, WorkUnits(w, r.txs)))
  {
    SavedAdd(runs, m.items, ids, m'.items, id);
    CountedAdd(MeasuresOf(w, runs), ids, t, id);
    IsMaxAdd(NextOf(runs), ids, m.minNextLt, m'.minNextLt, id);
    MaxNextLtFrom(runs(id).txs, m'.minNextLt);
  }

  ghost function Ids(order: seq<AccountId>): set<AccountId> {
    set id | id in order
  }

  lemma IdsOneMore(order: seq<AccountId>, i: nat)
    requires i < |order| && Distinct(order)
    ensures order[i] !in Ids(order[..i]) && Ids(order[..i + 1]) == Ids(order[..i]) + {order[i]}
  {
    assert order[..i + 1] == order[..i] + [order[i]];
  }

  ghost predicate RunsInOrder(e: Executor, m: Manager, group: Group, order: seq<AccountId>, rs: seq<AccountRun>) {
    |rs| <= |order| && forall i :: 0 <= i < |rs| ==> order[i] in group && RunOf(e, m, group, order[i]) == Some(rs[i])
  }

  /** Runs all accounts from the same starting point. */
  method RunAll(e: Executor, m: Manager, group: Group, order: seq<AccountId>) returns (r: Option<seq<AccountRun>>)
    requires Enumerates(order, group.Keys)
    ensures r.Some? <==> AllRun(e, m, group)
    ensures r.Some? ==> |r.value| == |order| && RunsInOrder(e, m, group, order, r.value)
  {
    var rs := [];
    for i := 0 to |order|
      invariant |rs| == i && RunsInOrder(e, m, group, order, rs)
    {
      var id := order[i];
      assert id in order;
      var run := ExecuteMessages(e, GetAccount(m, id), group[id], m.minNextLt);
      if run.None? {
        return None;
      }
      rs := rs + [run.value];
    }
    forall id | id in group
      ensures RunOf(e, m, group, id).Some?
    {
      assert id in order;
    }
    r := Some(rs);
  }

  ghost predicate Follows(runs: Runs, order: seq<AccountId>, rs: seq<AccountRun>) {
    |rs| == |order| && forall i :: 0 <= i < |rs| ==> runs(order[i]) == rs[i]
  }

  lemma RunsFollow(e: Executor, m: Manager, group: Group, order: seq<AccountId>, rs: seq<AccountRun>)
    requires |rs| == |order| && RunsInOrder(e, m, group, order, rs)
    ensures Follows(RunsOf(e, m, group), order, rs)
  {
    forall i | 0 <= i < |rs|
      ensures RunsOf(e, m, group)(order[i]) == rs[i]
    {
      RunsOfAt(e, m, group, order[i]);
    }
  }

  lemma IdsOfAll(order: seq<AccountId>, ids: set<AccountId>)
    requires Enumerates(order, ids)
    ensures Ids(order) == ids
  {
  }

  ghost predicate DoneUpTo(runs: Runs, w: WuParams, m: Manager, order: seq<AccountId>, i: nat, m': Manager, t: Totals)
    requires w.delimiter > 0
  {
    i <= |order| && Done(runs, w, m, Ids(order[..i]), m', t)
  }

  lemma DoneNone(runs: Runs, w: WuParams, m: Manager, order: seq<AccountId>)
    requires w.delimiter > 0
    ensures DoneUpTo(runs, w, m, order, 0, m, Totals(0, 0, 0, 0))
  {
    assert Ids(order[..0]) == {};
  }

  lemma DoneAll(runs: Runs, w: WuParams, m: Manager, order: seq<AccountId>, m': Manager, t: Totals)
    requires w.delimiter > 0 && DoneUpTo(runs, w, m, order, |order|, m', t)
    ensures Done(runs, w, m, Ids(order), m', t)
  {
    assert order[..|order|] == order;
  }

  /** Saves the results one account after the other. */
  method SaveAll(ghost runs: Runs, w: WuParams, m: Manager, order: seq<AccountId>, rs: seq<AccountRun>)
    returns (m': Manager, t: Totals)
    requires w.delimiter > 0 && Follows(runs, order, rs) && Distinct(order)
    ensures Done(runs, w, m, Ids(order), m', t)
  {
    m', t := m, Totals(0, 0, 0, 0);
    DoneNone(runs, w, m, order);
    for i := 0 to |order|
      invariant DoneUpTo(runs, w, m, order, i, m', t)
    {
      m', t := SaveNext(runs, w, m, order, i, rs[i], m', t);
    }
    DoneAll(runs, w, m, order, m', t);
  }

  method SaveNext(ghost runs: Runs, w: WuParams, ghost m: Manager, order: seq<AccountId>, i: nat, r: AccountRun,
                  m1: Manager, t1: Totals) returns (m2: Manager, t2: Totals)
    requires w.delimiter > 0 && i < |order| && Distinct(order)
    requires runs(order[i]) == r && DoneUpTo(runs, w, m, order, i, m1, t1)
    ensures DoneUpTo(runs, w, m, order, i + 1, m2, t2)
  {
    IdsOneMore(order, i);
    DoneAdd(runs, w, m, Ids(order[..i]), m1, t1, order[i]);
    m2, t2 := Save(w, m1, t1, order[i], r);
  }

  /** The whole group: all runs first, then their results in the given order. */
  method RunGroup(e: Executor, w: WuParams, m: Manager, group: Group, order: seq<AccountId>)
    returns (r: Option<(Manager, Totals)>)
    requires w.delimiter > 0 && Enumerates(order, group.Keys)
    ensures r.Some? <==> AllRun(e, m, group)
    ensures r.Some? ==> Done(RunsOf(e, m, group), w, m, group.Keys, r.value.0, r.value.1)
  {
    var rs := RunAll(e, m, group, order);
    if rs.None? {
      return None;
    }
    RunsFollow(e, m, group, order, rs.value);
    IdsOfAll(order, group.Keys);
    var m', t := SaveAll(RunsOf(e, m, group), w, m, order, rs.value);
    r := Some((m', t));
  }

  method Save(w: WuParams, m: Manager, t: Totals, id: AccountId, r: AccountRun) returns (m': Manager, t': Totals)
    requires w.delimiter > 0
    ensures m' == m.(items := m.items[id := r.account], minNextLt := MaxNextLt(r.txs, m.minNextLt))
    ensures t' == Plus(t, Errors(r.txs), r.skipped, |r.txs|, WorkUnits(w, r.txs))
  {
    var lt, errors, wu := SaveSubgroup(w, m.minNextLt, r.txs);
    m' := m.(items := m.items[id := r.account], minNextLt := lt);
    t' := Plus(t, errors, r.skipped, |r.txs|, wu);
  }

  /** Any two orders of the accounts end in the same place. */
  lemma SameForEveryOrder(runs: Runs, w: WuParams, m: Manager, ids: set<AccountId>,
                          m1: Manager, t1: Totals, m2: Manager, t2: Totals)
    requires w.delimiter > 0
    requires Done(runs, w, m, ids, m1, t1) && Done(runs, w, m, ids, m2, t2)
    ensures m1 == m2 && t1 == t2
  {
    assert m1.items == m2.items;
  }

  // --- runs of groups ---

  ghost predicate Executes(e: Executor, w: WuParams, m: Manager, group: Group, m': Manager, t: Totals)
    requires w.delimiter > 0
  {
    AllRun(e, m, group) && Done(RunsOf(e, m, group), w, m, group.Keys, m', t)
  }

  /** An account after a group: its run's result, or what it was. */
  lemma AccountAfter(e: Executor, w: WuParams, m: Manager, group: Group, m': Manager, t: Totals, id: AccountId)
    requires w.delimiter > 0 && Executes(e, w, m, group, m', t)
    ensures id in m'.items <==> id in m.items || id in group
    ensures id in group ==> RunOf(e, m, group, id).Some? && m'.items[id] == RunOf(e, m, group, id).value.account
    ensures id !in group && id in m.items ==> m'.items[id] == m.items[id]
  {
  }

  lemma AccountAfterOk(e: Executor, w: WuParams, m: Manager, group: Group, m': Manager, t: Totals, id: AccountId)
    requires Lawful(e) && w.delimiter > 0 && ManagerOk(m) && Executes(e, w, m, group, m', t) && id in m'.items
    ensures AccountOk(m'.items[id]) && KeepsAccount(GetAccount(m, id), m'.items[id])
  {
    AccountAfter(e, w, m, group, m', t, id);
    if id in group {
      RunIsOk(e, GetAccount(m, id), group[id], m.minNextLt);
    }
  }

  ghost predicate KeepsAccount(a: Account, b: Account) {
    forall lt :: lt in a.transactions ==> lt in b.transactions && b.transactions[lt] == a.transactions[lt]
  }

  ghost predicate KeepsTransactions(m: Manager, m': Manager) {
    forall id :: id in m.items ==> id in m'.items && KeepsAccount(m.items[id], m'.items[id])
  }

  /** A transaction of a group. */
  ghost predicate TxOf(e: Executor, m: Manager, group: Group, id: AccountId, tx: Executed) {
    id in group && RunOf(e, m, group, id).Some? && Some(tx) in RunOf(e, m, group, id).value.txs
  }

  lemma {:induction false} NextLtCounted(txs: seq<Option<Executed>>, tx: Executed)
    requires Some(tx) in txs
    ensures tx.nextLt <= MaxNextLt(txs, 0)
  {
    if txs[|txs| - 1] != Some(tx) {
      assert txs == txs[..|txs| - 1] + [txs[|txs| - 1]];
      NextLtCounted(txs[..|txs| - 1], tx);
    }
  }

  lemma LtInOrder(txs: seq<Option<Executed>>, from: Lt, to: Lt, tx: Executed)
    requires InLtOrder(txs, from, to) && Some(tx) in txs
    ensures from <= tx.lt < tx.nextLt
  {
  }

  lemma MinNextLtAfter(runs: Runs, w: WuParams, m: Manager, ids: set<AccountId>, m': Manager, t: Totals, id: AccountId)
    requires w.delimiter > 0 && Done(runs, w, m, ids, m', t) && id in ids
    ensures MaxNextLt(runs(id).txs, 0) <= m'.minNextLt
  {
    assert NextOf(runs)(id) <= m'.minNextLt;
  }

  lemma TxFrom(e: Executor, m: Manager, group: Group, id: AccountId, tx: Executed)
    requires Lawful(e) && ManagerOk(m) && TxOf(e, m, group, id, tx)
    ensures m.minNextLt <= tx.lt < tx.nextLt
  {
    var a := GetAccount(m, id);
    RunIsOk(e, a, group[id], m.minNextLt);
    var r := RunOf(e, m, group, id).value;
    LtInOrder(r.txs, AlignMinLt(a, m.minNextLt), r.account.minNextLt, tx);
  }

  lemma TxTo(e: Executor, w: WuParams, m: Manager, group: Group, m': Manager, t: Totals, id: AccountId, tx: Executed)
    requires w.delimiter > 0 && TxOf(e, m, group, id, tx) && Executes(e, w, m, group, m', t)
    ensures tx.nextLt <= m'.minNextLt
  {
    RunsOfAt(e, m, group, id);
    NextLtCounted(RunsOf(e, m, group)(id).txs, tx);
    MinNextLtAfter(RunsOf(e, m, group), w, m, group.Keys, m', t, id);
  }

  /** All transactions of a group lie between the manager's least time before it and after it. */
  lemma GroupBounds(e: Executor, w: WuParams, m: Manager, group: Group, m': Manager, t: Totals, id: AccountId, tx: Executed)
    requires Lawful(e) && w.delimiter > 0 && ManagerOk(m) && TxOf(e, m, group, id, tx) && Executes(e, w, m, group, m', t)
    ensures m.minNextLt <= tx.lt < tx.nextLt <= m'.minNextLt
  {
    TxFrom(e, m, group, id, tx);
    TxTo(e, w, m, group, m', t, id, tx);
  }

  ghost predicate TxsWithin(e: Executor, m: Manager, group: Group, from: Lt, to: Lt) {
    forall id, tx :: TxOf(e, m, group, id, tx) ==> from <= tx.lt < tx.nextLt <= to
  }

  /** What a group does to a well-formed manager. */
  ghost predicate Advances(e: Executor, m: Manager, group: Group, m': Manager) {
    && ManagerOk(m') && KeepsTransactions(m, m')
    && m.minNextLt <= m'.minNextLt && TxsWithin(e, m, group, m.minNextLt, m'.minNextLt)
  }

  lemma GroupAdvances(e: Executor, w: WuParams, m: Manager, group: Group, m': Manager, t: Totals)
    requires Lawful(e) && w.delimiter > 0 && ManagerOk(m) && Executes(e, w, m, group, m', t)
    ensures Advances(e, m, group, m')
  {
    forall id | id in m'.items
      ensures AccountOk(m'.items[id]) && KeepsAccount(GetAccount(m, id), m'.items[id])
    {
      AccountAfterOk(e, w, m, group, m', t, id);
    }
    forall id | id in m.items
      ensures id in m'.items
    {
      AccountAfter(e, w, m, group, m', t, id);
    }
    forall id, tx | TxOf(e, m, group, id, tx)
      ensures m.minNextLt <= tx.lt < tx.nextLt <= m'.minNextLt
    {
      GroupBounds(e, w, m, group, m', t, id, tx);
    }
  }

  ghost predicate GroupRun(e: Executor, w: WuParams, states: seq<Manager>, groups: seq<Group>, totals: seq<Totals>)
    requires w.delimiter > 0
  {
    && |states| == |groups| + 1 == |totals| + 1 && ManagerOk(states[0])
    && forall i :: 0 <= i < |groups| ==> Executes(e, w, states[i], groups[i], states[i + 1], totals[i])
  }

  lemma {:induction false} RunAdvances(e: Executor, w: WuParams, states: seq<Manager>, groups: seq<Group>,
                                       totals: seq<Totals>, i: nat)
    requires Lawful(e) && w.delimiter > 0 && GroupRun(e, w, states, groups, totals) && i < |groups|
    ensures ManagerOk(states[i]) && Advances(e, states[i], groups[i], states[i + 1])
  {
    if i > 0 {
      RunAdvances(e, w, states, groups, totals, i - 1);
    }
    GroupAdvances(e, w, states[i], groups[i], states[i + 1], totals[i]);
  }

  /** Nothing recorded is lost or overwritten, and the least time has not fallen. */
  ghost predicate Later(m: Manager, m': Manager) {
    KeepsTransactions(m, m') && m.minNextLt <= m'.minNextLt
  }

  lemma LaterTransitive(x: Manager, y: Manager, z: Manager)
    requires Later(x, y) && Later(y, z)
    ensures Later(x, z)
  {
    forall id | id in x.items
      ensures id in z.items && KeepsAccount(x.items[id], z.items[id])
    {
      assert KeepsAccount(x.items[id], y.items[id]) && KeepsAccount(y.items[id], z.items[id]);
    }
  }

  ghost predicate LaterAt(states: seq<Manager>, k: int) {
    0 <= k < |states| - 1 && Later(states[k], states[k + 1])
  }

  lemma {:induction false} Climbs(states: seq<Manager>, i: nat, j: nat)
    requires i <= j < |states| && forall k :: i <= k < j ==> LaterAt(states, k)
    ensures Later(states[i], states[j])
    decreases j
  {
    if i < j {
      Climbs(states, i, j - 1);
      assert LaterAt(states, j - 1);
      LaterTransitive(states[i], states[j - 1], states[j]);
    }
  }

  /** Over any run no recorded transaction is lost or overwritten, and the least time never falls. */
  lemma TransactionsStay(e: Executor, w: WuParams, states: seq<Manager>, groups: seq<Group>,
                         totals: seq<Totals>, i: nat, j: nat)
    requires Lawful(e) && w.delimiter > 0 && GroupRun(e, w, states, groups, totals) && i <= j < |states|
    ensures KeepsTransactions(states[i], states[j]) && states[i].minNextLt <= states[j].minNextLt
  {
    forall k | i <= k < j
      ensures LaterAt(states, k)
    {
      RunAdvances(e, w, states, groups, totals, k);
    }
    Climbs(states, i, j);
  }

  /** Over any run, a transaction of a later group starts at or after the end of every transaction of an earlier one. */
  lemma LaterGroupsStartLater(e: Executor, w: WuParams, states: seq<Manager>, groups: seq<Group>, totals: seq<Totals>,
                              i: nat, j: nat, a: AccountId, x: Executed, b: AccountId, y: Executed)
    requires Lawful(e) && w.delimiter > 0 && GroupRun(e, w, states, groups, totals) && i < j < |groups|
    requires TxOf(e, states[i], groups[i], a, x) && TxOf(e, states[j], groups[j], b, y)
    ensures x.lt < x.nextLt <= y.lt
  {
    RunAdvances(e, w, states, groups, totals, i);
    RunAdvances(e, w, states, groups, totals, j);
    TransactionsStay(e, w, states, groups, totals, i + 1, j);
  }

  /** Where an account starts: as cached, else as in the previous state, else empty. */
  ghost predicate StartsFrom(m: Manager, id: AccountId, a: Account) {
    && (id in m.items ==> a == m.items[id])
    && (id !in m.items ==> a.transactions == map[] && a.minNextLt == 0)
    && (id !in m.items && id in m.base ==> a.state == m.base[id])
    && (id !in m.items && id !in m.base ==> a.state == m.emptyState)
  }

  ghost predicate AccountTraced(e: Executor, m: Manager, msgs: seq<Message>, id: AccountId, a: Account, r: AccountRun) {
    StartsFrom(m, id, a) && RunTraced(e, a, msgs, m.minNextLt, r)
  }

  /** A whole group, account by account: each runs its own messages from where it started and ends in the cache;
    the others are as they were. */
  ghost predicate GroupTraced(e: Executor, m: Manager, group: Group, m': Manager) {
    && m'.base == m.base && m'.emptyState == m.emptyState
    && (forall id :: id in m'.items <==> id in m.items || id in group)
    && (forall id :: id in m.items && id !in group ==> m'.items[id] == m.items[id])
    && (forall id :: id in group ==> exists a, r :: AccountTraced(e, m, group[id], id, a, r) && m'.items[id] == r.account)
  }

  lemma GroupIsTraced(e: Executor, w: WuParams, m: Manager, group: Group, m': Manager, t: Totals)
    requires w.delimiter > 0 && Executes(e, w, m, group, m', t)
    ensures GroupTraced(e, m, group, m')
  {
    forall id
      ensures id in m'.items <==> id in m.items || id in group
      ensures id in m.items && id !in group ==> m'.items[id] == m.items[id]
    {
      AccountAfter(e, w, m, group, m', t, id);
    }
    forall id | id in group
      ensures exists a, r :: AccountTraced(e, m, group[id], id, a, r) && m'.items[id] == r.account
    {
      AccountAfter(e, w, m, group, m', t, id);
      var a := GetAccount(m, id);
      var r := RunOf(e, m, group, id).value;
      RunIsTraced(e, a, group[id], m.minNextLt);
      assert AccountTraced(e, m, group[id], id, a, r);
    }
  }

  /** The work of a group is shared by its subgroups, as many as it takes to hold all accounts, and cut to 64 bits. */
  method ShareWork(w: WuParams, accounts: nat, wu: nat) returns (r: nat)
    ensures accounts == 0 ==> r == 0
    ensures accounts > 0 ==> exists k: nat :: IsShare(w, accounts, wu, k, r)
  {
    var size := if w.subgroupSize == 0 then 1 else w.subgroupSize;
    if accounts == 0 {
      return 0;
    }
    var k := (accounts + size - 1) / size;
    CeilIs(accounts, size);
    r := wu / k % (U64_MAX + 1);
    assert IsShare(w, accounts, wu, k, r);
  }

  ghost predicate IsShare(w: WuParams, accounts: nat, wu: nat, k: nat, r: nat) {
    var size := if w.subgroupSize == 0 then 1 else w.subgroupSize;
    0 < k && (k - 1) * size < accounts <= k * size && r == wu / k % 0x1_0000_0000_0000_0000
  }

  lemma CeilIs(n: nat, size: nat)
    requires n > 0 && size > 0
    ensures var k := (n + size - 1) / size; 0 < k && (k - 1) * size < n <= k * size
  {
    var (x, k) := (n + size - 1, (n + size - 1) / size);
    assert x == k * size + x % size;
    assert (k - 1) * size == k * size - size;
  }

  class ExecutionManager {
    var contents: Manager
    const executor: Executor
    const params: WuParams

    /** A failing group leaves the manager unusable, so nothing is said of it then. */
    method ExecuteGroup(group: Group, order: seq<AccountId>) returns (r: Option<Totals>, work: nat)
      requires params.delimiter > 0 && Enumerates(order, group.Keys)
      modifies this
      ensures r.Some? <==> AllRun(executor, old(contents), group)
      ensures r.Some? ==> Executes(executor, params, old(contents), group, contents, r.value)
      ensures r.Some? ==> GroupTraced(executor, old(contents), group, contents)
      ensures r.Some? && |group| > 0 ==> exists k: nat :: IsShare(params, |group|, r.value.wu, k, work)
    {
      var out := RunGroup(executor, params, contents, group, order);
      if out.None? {
        return None, 0;
      }
      GroupIsTraced(executor, params, contents, group, out.value.0, out.value.1);
      work := ShareWork(params, |group|, out.value.1.wu);
      contents := out.value.0;
      r := Some(out.value.1);
    }
  }
}
