/** A user's trading rules together: created, evaluated against the book, dealt with, switched over and deleted. */
module RuleBook {
  import opened Basics
  import opened TradingRules

  type Id = string

  datatype Row = Row(id: Id, rule: Rule)

  /** The holdings a rule may watch, by ticker; cash is never one. */
  type Index = map<Ticker, Sight>
  type Flips = map<string, Flip>

  // ---------------------------------------------------------------- keys

  datatype Key = Key(ticker: Ticker, kind: RuleType, mode: Option<Mode>, strategy: Option<string>)

  /** What at most one active rule may have: protective rules one a ticker, a strategy subscription one for each side
      and strategy.  Price alerts may be stacked. */
  function KeyOf(r: Rule): Option<Key> {
    if OneShot(r.kind) || r.kind.MaxWeight? then Some(Key(r.ticker, r.kind, None, None))
    else if r.kind.StrategySignal? then Some(Key(r.ticker, r.kind, Some(r.mode), r.strategy))
    else None
  }

  predicate Clash(a: Rule, b: Rule) { a.active && b.active && KeyOf(a).Some? && KeyOf(a) == KeyOf(b) }

  /** Two rules clash exactly when both are on, watch one ticker, and are of one protective kind, or subscribe to one
      side of one strategy; price alerts never do. */
  lemma ClashIff(a: Rule, b: Rule)
    ensures Clash(a, b) <==>
      && a.active && b.active && a.ticker == b.ticker && a.kind == b.kind
      && !a.kind.PriceAbove? && !a.kind.PriceBelow?
      && (a.kind.StrategySignal? ==> a.mode == b.mode && a.strategy == b.strategy)
  {
  }

  ghost predicate NoClash(rows: seq<Row>) { forall i, j :: 0 <= i < j < |rows| ==> !Clash(rows[i].rule, rows[j].rule) }

  // ---------------------------------------------------------------- evaluation

  /** A subscription fires on its strategy's recorded flip to its own side. */
  predicate SignalFires(r: Rule, flips: Flips) {
    r.strategy.Some? && r.strategy.value != "" && r.strategy.value in flips &&
      SideOf(flips[r.strategy.value], r.ticker) == Some(r.mode) && !r.triggered
  }

  predicate FiresIn(r: Rule, idx: Index, flips: Flips) {
    r.active && if r.kind.StrategySignal? then SignalFires(r, flips) else r.ticker in idx && Fires(r, idx[r.ticker])
  }

  /** One rule's turn: a rule whose holding is gone is retired. */
  function Evaluated(r: Rule, idx: Index, flips: Flips): Rule {
    if !r.active then r
    else if r.kind.StrategySignal? then (if SignalFires(r, flips) then r.(triggered := true) else r)
    else if r.ticker !in idx then r.(active := false, triggered := false)
    else Watch(r, idx[r.ticker])
  }

  function EvaluateRows(rows: seq<Row>, idx: Index, flips: Flips): (r: seq<Row>)
    ensures |r| == |rows| && forall i :: 0 <= i < |rows| ==>
        r[i] == Row(rows[i].id, Evaluated(rows[i].rule, idx, flips))
  {
    seq(|rows|, i requires 0 <= i < |rows| => Row(rows[i].id, Evaluated(rows[i].rule, idx, flips)))
  }

  /** Which of the first n rules fire, in order. */
  function Fired(rows: seq<Row>, n: nat, idx: Index, flips: Flips): seq<Id>
    requires n <= |rows|
  {
    if n == 0 then []
    else Fired(rows, n - 1, idx, flips) + (if FiresIn(rows[n - 1].rule, idx, flips) then [rows[n - 1].id] else [])
  }

  /** Rules for tickers no longer held are deleted, but never on an empty index. */
  function Purge(rows: seq<Row>, idx: Index): seq<Row> {
    if idx == map[] then rows else Held(rows, idx)
  }

  function Held(rows: seq<Row>, idx: Index): seq<Row> {
    if rows == [] then []
    else Held(rows[..|rows| - 1], idx) + (if rows[|rows| - 1].rule.ticker in idx then [rows[|rows| - 1]] else [])
  }

  function EvaluatedUser(rows: seq<Row>, idx: Index, flips: Flips): seq<Row> {
    EvaluateRows(Purge(rows, idx), idx, flips)
  }

  // ---------------------------------------------------------------- create, resolve, toggle, delete

  datatype Request = Request(ticker: Ticker, kind: RuleType, mode: Mode, level: real, strategy: Option<string>)

  /** The rule a request arms, or nothing when a subscription does not say what it follows. */
  function RuleFor(q: Request): Option<Rule> {
    if q.kind.StrategySignal? then
      if q.strategy.None? || q.strategy.value == "" || !(q.mode.Entry? || q.mode.Exit?) then None
      else Some(Rule(q.ticker, q.kind, q.mode, 0.0, q.strategy, None, true, false))
    else
      var asked := if q.mode.AtPrice? then AtPrice else Pct;
      var mode := if q.kind.PriceAbove? || q.kind.PriceBelow? then AtPrice
                  else if q.kind.TrailingStop? || q.kind.MaxWeight? then Pct else asked;
      Some(Rule(q.ticker, q.kind, mode, q.level, q.strategy, None, true, false))
  }

  /** The first active rule a new one would duplicate; none is reported as the number of rows. */
  function ConflictAt(rows: seq<Row>, r: Rule): (k: nat)
    ensures k <= |rows| && (k < |rows| ==> Clash(rows[k].rule, r)) && forall i :: 0 <= i < k ==> !Clash(rows[i].rule, r)
  {
    if rows == [] || Clash(rows[0].rule, r) then 0 else 1 + ConflictAt(rows[1..], r)
  }

  /** A rule set again keeps its place and its peak, takes the new level, and is armed. */
  function Releveled(was: Rule, r: Rule): Rule {
    was.(level := r.level, mode := r.mode, active := true, triggered := false,
          strategy := if r.strategy.Some? && r.strategy.value != "" then r.strategy else was.strategy)
  }

  function Created(rows: seq<Row>, id: Id, q: Request): Option<seq<Row>> {
    match RuleFor(q)
    case None => None
    case Some(r) =>
      var k := ConflictAt(rows, r);
      Some(if k < |rows| then rows[k := Row(rows[k].id, Releveled(rows[k].rule, r))] else rows + [Row(id, r)])
  }

  function RowAt(rows: seq<Row>, id: Id): (k: nat)
    ensures k <= |rows| && (k < |rows| ==> rows[k].id == id)
  {
    if rows == [] || rows[0].id == id then 0 else 1 + RowAt(rows[1..], id)
  }

  /** The first row whose id starts so. */
  function PrefixAt(rows: seq<Row>, start: Id): (k: nat)
    ensures k <= |rows| && (k < |rows| ==> start <= rows[k].id) && forall i :: 0 <= i < k ==> !(start <= rows[i].id)
  {
    if rows == [] || start <= rows[0].id then 0 else 1 + PrefixAt(rows[1..], start)
  }

  /** A rule is dealt with by its id, or by the start of one. */
  function ResolveAt(rows: seq<Row>, id: Id): (k: nat)
    ensures k <= |rows| && (k < |rows| ==> id <= rows[k].id)
    ensures k == |rows| <==> forall i :: 0 <= i < |rows| ==> !(id <= rows[i].id)
  {
    if RowAt(rows, id) < |rows| then RowAt(rows, id) else PrefixAt(rows, id)
  }

  /** An id in full is meant before the start of one, wherever it stands. */
  lemma {:induction false} ExactIdIsMeant(rows: seq<Row>, id: Id, i: nat)
    requires i < |rows| && rows[i].id == id && forall j :: 0 <= j < i ==> rows[j].id != id
    ensures ResolveAt(rows, id) == RowAt(rows, id) == i
  {
    if i > 0 {
      ExactIdIsMeant(rows[1..], id, i - 1);
    }
  }

  /** Without one the first row whose id starts so is. */
  lemma {:induction false} StartIsMeant(rows: seq<Row>, id: Id)
    requires forall i :: 0 <= i < |rows| ==> rows[i].id != id
    ensures RowAt(rows, id) == |rows|
    ensures forall j :: 0 <= j < ResolveAt(rows, id) ==> !(id <= rows[j].id)
  {
    if rows != [] {
      StartIsMeant(rows[1..], id);
    }
  }

  function Changed(rows: seq<Row>, k: nat, e: Event): seq<Row> {
    if k < |rows| then rows[k := Row(rows[k].id, After(rows[k].rule, e))] else rows
  }

  function Toggled(rows: seq<Row>, id: Id): seq<Row> { Changed(rows, RowAt(rows, id), Event.Toggle) }

  function Resolved(rows: seq<Row>, id: Id): seq<Row> { Changed(rows, ResolveAt(rows, id), Event.Resolve) }

  function Deleted(rows: seq<Row>, id: Id): seq<Row> {
    var k := RowAt(rows, id);
    if k < |rows| then rows[..k] + rows[k + 1..] else rows
  }

  // ---------------------------------------------------------------- the stored objects

  class TradingRule {
    const id: Id
    const ticker: Ticker
    const kind: RuleType
    var mode: Mode
    var level: real
    var strategy: Option<string>
    var peak: Option<real>
    var active: bool
    var triggered: bool

    constructor (id: Id, r: Rule)
      ensures Value() == Row(id, r)
    {
      this.id, ticker, kind := id, r.ticker, r.kind;
      mode, level, strategy, peak, active, triggered := r.mode, r.level, r.strategy, r.peak, r.active, r.triggered;
    }

    function Value(): Row
      reads this
    {
      Row(id, Rule(ticker, kind, mode, level, strategy, peak, active, triggered))
    }

    /** The evaluator's turn at this rule: track the peak, latch, re-arm or retire. */
    method Evaluate(idx: Index, flips: Flips) returns (fired: bool)
      modifies this
      ensures Value() == Row(id, Evaluated(old(Value()).rule, idx, flips)) &&
          fired == FiresIn(old(Value()).rule, idx, flips)
    {
      hide Hit, ClearsWithMargin, SideOf;
      fired := false;
      if !active {
        return;
      }
      if kind.StrategySignal? {
        if SignalFires(Value().rule, flips) {
          triggered, fired := true, true;
        }
        return;
      }
      if ticker !in idx {
        active, triggered := false, false;
        return;
      }
      var s := idx[ticker];
      if kind.TrailingStop? && s.price > 0.0 {
        peak := Some(Max(PeakOr(Value().rule, s.price), s.price));
      }
      var hit := Hit(Value().rule, s);
      if hit && !triggered {
        triggered, fired := true, true;
      } else if !hit && triggered && Standing(kind) && ClearsWithMargin(Value().rule, s) {
        triggered := false;
      }
    }

    method Relevel(r: Rule)
      modifies this
      ensures Value() == Row(id, Releveled(old(Value()).rule, r))
    {
      level, mode, active, triggered := r.level, r.mode, true, false;
      if r.strategy.Some? && r.strategy.value != "" {
        strategy := r.strategy;
      }
    }

    method Resolve()
      modifies this
      ensures Value() == Row(id, After(old(Value()).rule, Event.Resolve))
    {
      triggered := false;
      if OneShot(kind) {
        active := false;
      }
    }

    method Toggle()
      modifies this
      ensures Value() == Row(id, After(old(Value()).rule, Event.Toggle))
    {
      active := !active;
      if active {
        triggered := false;
      }
    }
  }

  class Book {
    var rules: seq<TradingRule>

    constructor ()
      ensures Valid() && Rows() == []
    {
      rules := [];
    }

    /** No rule is stored twice. */
    ghost predicate Valid()
      reads this
    {
      forall i, j :: 0 <= i < j < |rules| ==> rules[i] != rules[j]
    }

    function Rows(): seq<Row>
      reads this, rules
    {
      seq(|rules|, i requires 0 <= i < |rules| reads this, rules => rules[i].Value())
    }

    method Create(id: Id, q: Request) returns (ok: bool)
      requires Valid()
      modifies this, rules
      ensures Valid() && fresh(set r | r in rules && r !in old(rules))
      ensures ok == RuleFor(q).Some? && Rows() == (if ok then Created(old(Rows()), id, q).value else old(Rows()))
    {
      var asked := RuleFor(q);
      if asked.None? {
        return false;
      }
      var k := ConflictAt(Rows(), asked.value);
      if k < |rules| {
        rules[k].Relevel(asked.value);
      } else {
        var rule := new TradingRule(id, asked.value);
        rules := rules + [rule];
      }
      ok := true;
      assert Rows() == Created(old(Rows()), id, q).value;
    }

    method ResolveRule(id: Id) returns (found: bool)
      requires Valid()
      modifies rules
      ensures rules == old(rules) && Rows() == Resolved(old(Rows()), id)
      ensures found == exists k :: 0 <= k < |rules| && id <= old(rules[k].id)
    {
      ghost var rows := Rows();
      var k := ResolveAt(Rows(), id);
      assert forall i :: 0 <= i < |rules| ==> rows[i].id == rules[i].id;
      found := k < |rules|;
      if found {
        rules[k].Resolve();
      }
      assert Rows() == Resolved(old(Rows()), id);
    }

    method ToggleRule(id: Id) returns (found: bool)
      requires Valid()
      modifies rules
      ensures rules == old(rules) && Rows() == Toggled(old(Rows()), id)
      ensures found == (RowAt(old(Rows()), id) < |rules|)
    {
      var k := RowAt(Rows(), id);
      found := k < |rules|;
      if found {
        rules[k].Toggle();
      }
      assert Rows() == Toggled(old(Rows()), id);
    }

    method DeleteRule(id: Id) returns (found: bool)
      requires Valid()
      modifies this
      ensures Valid() && Rows() == Deleted(old(Rows()), id) && found == (RowAt(old(Rows()), id) < |old(rules)|)
    {
      var k := RowAt(Rows(), id);
      found := k < |rules|;
      if found {
        rules := rules[..k] + rules[k + 1..];
      }
      assert Rows() == Deleted(old(Rows()), id);
    }

    method PurgeOrphans(idx: Index)
      requires Valid()
      modifies this
      ensures Valid() && Rows() == Purge(old(Rows()), idx)
      ensures forall r :: r in rules ==> r in old(rules)
    {
      if idx == map[] {
        return;
      }
      ghost var before := Rows();
      var kept := [];
      for k := 0 to |rules|
        invariant rules == old(rules)
        invariant forall r :: r in kept ==> r in rules[..k]
        invariant forall i, j :: 0 <= i < j < |kept| ==> kept[i] != kept[j]
        invariant |kept| == |Held(before[..k], idx)| && forall i :: 0 <= i < |kept| ==>
            kept[i].Value() == Held(before[..k], idx)[i]
      {
        assert before[..k + 1][..k] == before[..k];
        assert rules[k] !in rules[..k];
        if rules[k].ticker in idx {
          kept := kept + [rules[k]];
        }
      }
      assert before[..|rules|] == before;
      rules := kept;
      assert Rows() == Held(before, idx);
    }

    /** The k-th rule's turn leaves every other rule alone. */
    method EvaluateAt(k: nat, idx: Index, flips: Flips) returns (fired: bool)
      requires Valid() && k < |rules|
      modifies rules[k]
      ensures Rows() == old(Rows())[k := Row(rules[k].id, Evaluated(old(Rows())[k].rule, idx, flips))]
      ensures fired == FiresIn(old(Rows())[k].rule, idx, flips) && rules[k].id == old(Rows())[k].id
    {
      hide Evaluated, FiresIn;
      fired := rules[k].Evaluate(idx, flips);
      assert Rows() == old(Rows())[k := Row(rules[k].id, Evaluated(old(Rows())[k].rule, idx, flips))];
    }

    /** Every rule's turn.  Returns the rules that fired. */
    method EvaluateEach(idx: Index, flips: Flips) returns (fired: seq<Id>)
      requires Valid()
      modifies rules
      ensures rules == old(rules) && Rows() == EvaluateRows(old(Rows()), idx, flips)
      ensures fired == Fired(old(Rows()), |old(Rows())|, idx, flips)
    {
      hide Evaluated, FiresIn, Rows, EvaluateRows;
      OneRowEach(this);
      ghost var rows, after := Rows(), EvaluateRows(Rows(), idx, flips);
      fired := [];
      for k := 0 to |rules|
        invariant Valid() && |rows| == |after| == |rules|
        invariant |Rows()| == |rows| && forall i :: 0 <= i < |rows| ==> Rows()[i] == if i < k then after[i] else rows[i]
        invariant fired == Fired(rows, k, idx, flips)
      {
        var hit := EvaluateAt(k, idx, flips);
        if hit {
          fired := fired + [rules[k].id];
        }
      }
      assert Rows() == after;
    }

    /** One run of the evaluator: purge, then every remaining rule's turn. */
    method EvaluateUser(idx: Index, flips: Flips) returns (fired: seq<Id>)
      requires Valid()
      modifies this, rules
      ensures Valid() && Rows() == EvaluatedUser(old(Rows()), idx, flips)
      ensures fired == Fired(Purge(old(Rows()), idx), |Purge(old(Rows()), idx)|, idx, flips)
    {
      hide EvaluateRows, Fired, Purge;
      PurgeOrphans(idx);
      assert forall i :: 0 <= i < |rules| ==> rules[i] in rules;
      fired := EvaluateEach(idx, flips);
    }
  }

  lemma OneRowEach(book: Book)
    ensures |book.Rows()| == |book.rules|
  {
  }

  // ---------------------------------------------------------------- at most one active rule a key

  const NOTHING := Sight(0.0, 0.0, 0.0)

  /** The screen's pass over fired rules; a holding it cannot find reads as zeros. */
  function ScreenRows(rows: seq<Row>, idx: Index): (r: seq<Row>)
    ensures |r| == |rows|
    ensures forall i :: 0 <= i < |rows| ==>
      r[i] == Row(rows[i].id,
                  Render(rows[i].rule, if rows[i].rule.ticker in idx then idx[rows[i].rule.ticker] else NOTHING))
  {
    seq(|rows|, i requires 0 <= i < |rows| =>
      Row(rows[i].id, Render(rows[i].rule, if rows[i].rule.ticker in idx then idx[rows[i].rule.ticker] else NOTHING)))
  }

  datatype Op = Create(newId: Id, q: Request) | ResolveOp(id: Id) | ToggleOp(id: Id) | DeleteOp(id: Id)
              | EvaluateOp(idx: Index, flips: Flips) | PurgeOp(idx: Index) | ScreenOp(idx: Index)

  function Step(rows: seq<Row>, op: Op): seq<Row> {
    match op
    case Create(id, q) => var made := Created(rows, id, q); if made.Some? then made.value else rows
    case ResolveOp(id) => Resolved(rows, id)
    case ToggleOp(id) => Toggled(rows, id)
    case DeleteOp(id) => Deleted(rows, id)
    case EvaluateOp(idx, flips) => EvaluatedUser(rows, idx, flips)
    case PurgeOp(idx) => Purge(rows, idx)
    case ScreenOp(idx) => ScreenRows(rows, idx)
  }

  function Run(rows: seq<Row>, ops: seq<Op>): seq<Row> {
    if ops == [] then rows else Step(Run(rows, ops[..|ops| - 1]), ops[|ops| - 1])
  }

  /** Nothing was switched on and nothing changed key. */
  ghost predicate NotWidened(a: Rule, b: Rule) { b.active ==> a.active && KeyOf(a) == KeyOf(b) }

  lemma PointwiseKeeps(a: seq<Row>, b: seq<Row>)
    requires NoClash(a) && |a| == |b| && forall i :: 0 <= i < |a| ==> NotWidened(a[i].rule, b[i].rule)
    ensures NoClash(b)
  {
  }

  lemma EvaluationWidensNothing(r: Rule, idx: Index, flips: Flips, s: Sight)
    ensures NotWidened(r, Evaluated(r, idx, flips)) && NotWidened(r, Render(r, s)) &&
        NotWidened(r, After(r, Event.Resolve))
  {
  }

  lemma {:induction false} HeldKeeps(rows: seq<Row>, idx: Index)
    requires NoClash(rows)
    ensures NoClash(Held(rows, idx)) && forall x :: x in Held(rows, idx) ==> x in rows && x.rule.ticker in idx
  {
    hide Clash;
    if rows != [] {
      var n := |rows| - 1;
      HeldKeeps(rows[..n], idx);
      forall i | 0 <= i < |Held(rows[..n], idx)|
        ensures !Clash(Held(rows[..n], idx)[i].rule, rows[n].rule)
      {
        assert Held(rows[..n], idx)[i] in rows[..n];
      }
    }
  }

  lemma RelevelKeepsKey(a: Rule, r: Rule)
    requires Clash(a, r)
    ensures KeyOf(Releveled(a, r)) == KeyOf(a)
  {
  }

  lemma CreatedKeeps(rows: seq<Row>, id: Id, q: Request)
    requires NoClash(rows) && Created(rows, id, q).Some?
    ensures NoClash(Created(rows, id, q).value)
  {
    hide RuleFor, Releveled, KeyOf;
    var r := RuleFor(q).value;
    var k := ConflictAt(rows, r);
    if k < |rows| {
      RelevelKeepsKey(rows[k].rule, r);
      assert NotWidened(rows[k].rule, Releveled(rows[k].rule, r)) by {
        hide NoClash, RuleFor, KeyOf;
      }
      PointwiseKeeps(rows, Created(rows, id, q).value);
    } else {
      forall i | 0 <= i < |rows|
        ensures !Clash(rows[i].rule, r)
      {
      }
    }
  }

  /** Another active rule already has this rule's key. */
  ghost predicate Taken(rows: seq<Row>, id: Id) {
    var k := RowAt(rows, id);
    k < |rows| && !rows[k].rule.active && KeyOf(rows[k].rule).Some?
    && exists j :: 0 <= j < |rows| && rows[j].rule.active && KeyOf(rows[j].rule) == KeyOf(rows[k].rule)
  }

  lemma ToggleKeepsIff(rows: seq<Row>, id: Id)
    requires NoClash(rows)
    ensures NoClash(Toggled(rows, id)) == !Taken(rows, id)
  {
    var k, after := RowAt(rows, id), Toggled(rows, id);
    if k < |rows| && rows[k].rule.active {
      PointwiseKeeps(rows, after);
    } else if k < |rows| {
      if j :| 0 <= j < |rows| && rows[j].rule.active && KeyOf(rows[j].rule) == KeyOf(rows[k].rule)
              && KeyOf(rows[k].rule).Some? {
        assert Clash(after[if j < k then j else k].rule, after[if j < k then k else j].rule);
      } else {
        forall i, j | 0 <= i < j < |after|
          ensures !Clash(after[i].rule, after[j].rule)
        {
          assert !Clash(rows[i].rule, rows[j].rule);
        }
      }
    }
  }

  /** At most one active rule a key: every operation keeps it, except switching a rule back on while another active
      one has taken its key. */
  lemma StepKeepsIff(rows: seq<Row>, op: Op)
    requires NoClash(rows)
    ensures NoClash(Step(rows, op)) == !(op.ToggleOp? && Taken(rows, op.id))
  {
    hide NoClash, Resolved, Toggled, Deleted, EvaluateRows, ScreenRows, Created, Held, Taken;
    match op
    case Create(id, q) =>
      if Created(rows, id, q).Some? {
        CreatedKeeps(rows, id, q);
      }
    case ResolveOp(id) => ResolvedKeeps(rows, id);
    case ToggleOp(id) => ToggleKeepsIff(rows, id);
    case DeleteOp(id) => DeletedKeeps(rows, id);
    case EvaluateOp(idx, flips) =>
      HeldKeeps(rows, idx);
      EvaluatedKeeps(Purge(rows, idx), idx, flips);
    case PurgeOp(idx) => HeldKeeps(rows, idx);
    case ScreenOp(idx) => ScreenKeeps(rows, idx);
  }

  lemma DeletedKeeps(rows: seq<Row>, id: Id)
    requires NoClash(rows)
    ensures NoClash(Deleted(rows, id))
  {
  }

  lemma ResolvedKeeps(rows: seq<Row>, id: Id)
    requires NoClash(rows)
    ensures NoClash(Resolved(rows, id))
  {
  }

  lemma EvaluatedKeeps(rows: seq<Row>, idx: Index, flips: Flips)
    requires NoClash(rows)
    ensures NoClash(EvaluateRows(rows, idx, flips))
  {
    hide NoClash, Evaluated, NotWidened;
    forall i | 0 <= i < |rows|
      ensures NotWidened(rows[i].rule, EvaluateRows(rows, idx, flips)[i].rule)
    {
      EvaluationWidensNothing(rows[i].rule, idx, flips, NOTHING);
    }
    PointwiseKeeps(rows, EvaluateRows(rows, idx, flips));
  }

  lemma ScreenKeeps(rows: seq<Row>, idx: Index)
    requires NoClash(rows)
    ensures NoClash(ScreenRows(rows, idx))
  {
  }

  ghost predicate NeverSwitchedInto(rows: seq<Row>, ops: seq<Op>) {
    forall i :: 0 <= i < |ops| ==> !(ops[i].ToggleOp? && Taken(Run(rows, ops[..i]), ops[i].id))
  }

  /** Over any run in which no rule is switched back on beside its successor, no ticker ever carries two active rules
      that contradict each other. */
  lemma {:induction false} RunKeepsOnePerKey(rows: seq<Row>, ops: seq<Op>)
    requires NoClash(rows) && NeverSwitchedInto(rows, ops)
    ensures NoClash(Run(rows, ops))
  {
    hide NoClash, Step, Taken;
    if ops != [] {
      var n := |ops| - 1;
      forall i | 0 <= i < n
        ensures ops[..n][..i] == ops[..i]
      {
      }
      RunKeepsOnePerKey(rows, ops[..n]);
      StepKeepsIff(Run(rows, ops[..n]), ops[n]);
    }
  }

  /** Off, replaced, and on again: two stops on one ticker, both active. */
  function Replaced(tk: Ticker, one: Id, first: real, two: Id, second: real): seq<Op> {
    [Create(one, Request(tk, TrailingStop, Pct, first, None)), ToggleOp(one),
     Create(two, Request(tk, TrailingStop, Pct, second, None)), ToggleOp(one)]
  }

  lemma {:induction false} SwitchingOnCanStack(tk: Ticker, one: Id, first: real, two: Id, second: real)
    ensures !NoClash(Run([], Replaced(tk, one, first, two, second)))
  {
    var ops := Replaced(tk, one, first, two, second);
    assert ops[..3][..2] == ops[..2] && ops[..2][..1] == ops[..1] && ops[..1][..0] == [];
    var a := Rule(tk, TrailingStop, Pct, first, None, None, true, false);
    var b := Rule(tk, TrailingStop, Pct, second, None, None, true, false);
    assert Run([], ops[..1]) == [Row(one, a)];
    assert Run([], ops[..2]) == [Row(one, a.(active := false))];
    assert Run([], ops[..3]) == [Row(one, a.(active := false)), Row(two, b)];
    assert Run([], ops) == [Row(one, a), Row(two, b)];
    assert Clash(Run([], ops)[0].rule, Run([], ops)[1].rule);
  }

  // ---------------------------------------------------------------- rules on holdings that are gone

  /** With anything held, a rule on a ticker that is not held is deleted, subscriptions to enter one included, so what
      fires is always held; the branch that would retire it is never reached. */
  lemma EvaluationDeletesOrphans(rows: seq<Row>, idx: Index, flips: Flips)
    requires idx != map[]
    ensures forall x :: x in EvaluatedUser(rows, idx, flips) ==> x.rule.ticker in idx
    ensures forall x :: x in Purge(rows, idx) && x.rule.active ==> Evaluated(x.rule, idx, flips).active
  {
    hide Watch;
    HeldAreHeld(rows, idx);
    var kept := Purge(rows, idx);
    forall i | 0 <= i < |kept|
      ensures Evaluated(kept[i].rule, idx, flips).ticker in idx &&
          (kept[i].rule.active ==> Evaluated(kept[i].rule, idx, flips).active)
    {
      assert kept[i] in kept;
      WatchKeepsPlace(kept[i].rule, idx[kept[i].rule.ticker]);
    }
  }

  lemma WatchKeepsPlace(r: Rule, s: Sight)
    ensures Watch(r, s).ticker == r.ticker && Watch(r, s).active == r.active
  {
  }

  lemma {:induction false} HeldAreHeld(rows: seq<Row>, idx: Index)
    ensures forall x :: x in Held(rows, idx) ==> x in rows && x.rule.ticker in idx
  {
    if rows != [] {
      HeldAreHeld(rows[..|rows| - 1], idx);
    }
  }

  /** An empty index deletes nothing, as it might be a failed read, but the same run then switches off every rule it
      watches: nothing is left armed but strategy subscriptions. */
  lemma EmptyIndexDisarms(rows: seq<Row>, flips: Flips)
    ensures |EvaluatedUser(rows, map[], flips)| == |rows|
    ensures forall x :: x in EvaluatedUser(rows, map[], flips) && x.rule.active ==> x.rule.kind.StrategySignal?
  {
  }
}
