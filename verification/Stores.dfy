/** The composite keys of the sessions table: internal/gateway/dynamo.go and receipt.go. */
module StoreKeys {
  import opened Text

  const META := "META"

  function SessionPk(id: string): string { "SESSION#" + id }

  function QuestionPk(id: string): string { "QUESTION#" + id }

  /** Decimal with at least `width` digits. */
  function Padded(width: nat, n: nat): string {
    Zeros(width - |Decimal(n)|) + Decimal(n)
  }

  function Zeros(k: int): string {
    seq(if k <= 0 then 0 else k, i => '0')
  }

  /** `%04d`: a sign takes one of the four places. */
  function RungText(rung: int): string {
    if rung < 0 then "-" + Padded(3, -rung) else Padded(4, rung)
  }

  function ReceiptSk(rung: int): string { "RECEIPT#" + RungText(rung) }

  // ---------------------------------------------------------------- digits

  function DigitValue(c: char): int { c as int - '0' as int }

  function Value(s: string): int {
    if s == "" then 0 else 10 * Value(s[..|s| - 1]) + DigitValue(s[|s| - 1])
  }

  predicate Digits(s: string) { forall c | c in s :: '0' <= c <= '9' }

  lemma DigitIs(d: nat)
    requires d < 10
    ensures DigitValue(Digit(d)) == d && '0' <= Digit(d) <= '9'
  {
  }

  lemma {:induction false} DecimalValue(n: nat)
    ensures Value(Decimal(n)) == n && Digits(Decimal(n)) && Decimal(n) != ""
  {
    DigitIs(n % 10);
    if n >= 10 {
      DecimalValue(n / 10);
      var s := Decimal(n);
      assert s[..|s| - 1] == Decimal(n / 10);
    } else {
      assert Decimal(n)[..0] == "";
    }
  }

  lemma {:induction false} ZerosValue(k: int, s: string)
    ensures Value(Zeros(k) + s) == Value(s) && Digits(Zeros(k))
    decreases |s|
  {
    if s != "" {
      ZerosValue(k, s[..|s| - 1]);
      var t := Zeros(k) + s;
      assert t[..|t| - 1] == Zeros(k) + s[..|s| - 1];
    } else {
      assert Zeros(k) + s == Zeros(k);
      ZerosAlone(k);
    }
  }

  lemma {:induction false} ZerosAlone(k: int)
    ensures Value(Zeros(k)) == 0 && forall c | c in Zeros(k) :: c == '0'
  {
    if k > 0 {
      ZerosAlone(k - 1);
      var z := Zeros(k);
      assert z[..|z| - 1] == Zeros(k - 1) && z[|z| - 1] == '0';
    }
  }

  lemma PaddedValue(width: nat, n: nat)
    ensures Value(Padded(width, n)) == n && Digits(Padded(width, n)) && Padded(width, n) != ""
  {
    DecimalValue(n);
    ZerosValue(width - |Decimal(n)|, Decimal(n));
  }

  lemma {:induction false} ShortDecimal(n: nat, width: nat)
    requires n < Power10(width) && width > 0
    ensures |Decimal(n)| <= width
    decreases width
  {
    if n >= 10 {
      ShortDecimal(n / 10, width - 1);
    }
  }

  function Power10(k: nat): nat { if k == 0 then 1 else 10 * Power10(k - 1) }

  // ---------------------------------------------------------------- the keys

  /** Different rungs have different sort keys. */
  lemma RungKeysInjective(a: int, b: int)
    requires ReceiptSk(a) == ReceiptSk(b)
    ensures a == b
  {
    assert ReceiptSk(a)[8..] == RungText(a) && ReceiptSk(b)[8..] == RungText(b);
    PaddedValue(4, if a < 0 then -a else a);
    PaddedValue(3, if a < 0 then -a else a);
    PaddedValue(4, if b < 0 then -b else b);
    PaddedValue(3, if b < 0 then -b else b);
    hide Padded, Value;
    SignIsNoDigit(a);
    SignIsNoDigit(b);
    if a < 0 { assert RungText(a)[1..] == Padded(3, -a); }
    if b < 0 { assert RungText(b)[1..] == Padded(3, -b); }
  }

  lemma SignIsNoDigit(rung: int)
    ensures RungText(rung) != "" && (RungText(rung)[0] == '-' <==> rung < 0)
  {
    if rung >= 0 {
      PaddedValue(4, rung);
      assert RungText(rung)[0] in RungText(rung);
    }
  }

  /** Sessions and questions live in disjoint partitions, each id in its own. */
  lemma PartitionsDisjoint(s: string, q: string, s': string, q': string)
    ensures SessionPk(s) != QuestionPk(q)
    ensures SessionPk(s) == SessionPk(s') ==> s == s'
    ensures QuestionPk(q) == QuestionPk(q') ==> q == q'
  {
    assert SessionPk(s)[0] == 'S' && QuestionPk(q)[0] == 'Q';
    assert SessionPk(s)[8..] == s && SessionPk(s')[8..] == s';
    assert QuestionPk(q)[9..] == q && QuestionPk(q')[9..] == q';
  }

  lemma DigitsSplit(s: string)
    requires Digits(s) && s != ""
    ensures s == s[..|s| - 1] + [s[|s| - 1]] && Digits(s[..|s| - 1]) && 0 <= DigitValue(s[|s| - 1]) < 10
  {
    assert forall i | 0 <= i < |s| :: s[i] in s;
    forall c | c in s[..|s| - 1] ensures c in s {
      var i :| 0 <= i < |s| - 1 && s[..|s| - 1][i] == c;
      assert s[i] == c;
    }
  }

  lemma {:induction false} SmallerComesFirst(a: string, b: string)
    requires |a| == |b| && Digits(a) && Digits(b) && Value(a) < Value(b)
    ensures Leq(a, b) && a != b
  {
    if a == "" {
    } else {
      var p, q, x, y := a[..|a| - 1], b[..|b| - 1], a[|a| - 1], b[|b| - 1];
      DigitsSplit(a);
      DigitsSplit(b);
      if Value(p) < Value(q) {
        SmallerComesFirst(p, q);
        LeqExtends(p, q, x, y);
      } else {
        SameValue(p, q);
        LeqLast(p, x, y);
      }
    }
  }

  lemma {:induction false} SameValue(p: string, q: string)
    requires |p| == |q| && Digits(p) && Digits(q) && Value(p) == Value(q)
    ensures p == q
  {
    if p != "" {
      DigitsSplit(p);
      DigitsSplit(q);
      SameValue(p[..|p| - 1], q[..|q| - 1]);
    }
  }

  lemma {:induction false} LeqExtends(p: string, q: string, x: char, y: char)
    requires |p| == |q| && Leq(p, q) && p != q
    ensures Leq(p + [x], q + [y])
  {
    if p != [] && p[0] == q[0] {
      assert p == [p[0]] + p[1..] && q == [q[0]] + q[1..];
      LeqExtends(p[1..], q[1..], x, y);
      assert (p + [x])[1..] == p[1..] + [x] && (q + [y])[1..] == q[1..] + [y];
    }
  }

  lemma {:induction false} LeqLast(p: string, x: char, y: char)
    requires x < y
    ensures Leq(p + [x], p + [y])
  {
    if p != [] {
      LeqLast(p[1..], x, y);
      assert (p + [x])[1..] == p[1..] + [x] && (p + [y])[1..] == p[1..] + [y];
    }
  }

  lemma {:induction false} LeqUnder(prefix: string, a: string, b: string)
    ensures Leq(prefix + a, prefix + b) <==> Leq(a, b)
  {
    if prefix == "" {
      assert prefix + a == a && prefix + b == b;
    } else {
      LeqUnder(prefix[1..], a, b);
      assert (prefix + a)[1..] == prefix[1..] + a && (prefix + b)[1..] == prefix[1..] + b;
    }
  }

  /** Up to the four digits of padding, rows sort by rung. */
  lemma RowsSortByRung(a: nat, b: nat)
    requires a < b <= 9999
    ensures Less(ReceiptSk(a), ReceiptSk(b))
  {
    assert Power10(4) == 10000 by { assert Power10(2) == 100; }
    ShortDecimal(a, 4);
    ShortDecimal(b, 4);
    PaddedValue(4, a);
    PaddedValue(4, b);
    SmallerComesFirst(RungText(a), RungText(b));
    LeqUnder("RECEIPT#", RungText(a), RungText(b));
    RungKeysDiffer(a, b);
  }

  lemma RungKeysDiffer(a: int, b: int)
    requires a != b
    ensures ReceiptSk(a) != ReceiptSk(b)
  {
    if ReceiptSk(a) == ReceiptSk(b) { RungKeysInjective(a, b); }
  }

  /** The rungs up to `n` all sort in order exactly while they have four digits. */
  lemma RowsSortIff(n: nat)
    ensures (forall a: nat, b: nat | a < b <= n :: Less(ReceiptSk(a), ReceiptSk(b))) <==> n <= 9999
  {
    hide ReceiptSk;
    if n <= 9999 {
      forall a: nat, b: nat | a < b <= n ensures Less(ReceiptSk(a), ReceiptSk(b)) { RowsSortByRung(a, b); }
    } else {
      FiveDigitsSortEarly();
      NotBothLess(ReceiptSk(2000), ReceiptSk(10000));
    }
  }

  lemma NotBothLess(a: string, b: string)
    requires Less(b, a)
    ensures !Less(a, b)
  {
    if Less(a, b) { LeqAntisymmetric(a, b); }
  }

  /** Beyond them they do not: rung 10000 sorts before rung 2000. */
  lemma FiveDigitsSortEarly()
    ensures Less(ReceiptSk(10000), ReceiptSk(2000))
  {
    assert Decimal(10000) == "10000" by { assert Decimal(100) == "100"; }
    assert Decimal(2000) == "2000" by { assert Decimal(20) == "20"; }
    LeqUnder("RECEIPT#", RungText(10000), RungText(2000));
    RungKeysDiffer(10000, 2000);
  }
}

/** The two stores, in memory and over one composite-key table: internal/gateway/fake.go and
    dynamo.go. Each keeps the same map of sessions and of receipts by question and rung. */
module Stores {
  import opened Text
  import opened Receipts
  import opened StoreKeys

  /** `lastRequest` is 0 for a time not set. */
  datatype Session = Session(id: string, instanceId: string, workerUrl: string, lastRequest: int)

  /** What a store holds, whatever its shape. */
  datatype Model = Model(sessions: map<string, Session>, receipts: map<(string, int), Receipt>)

  const EMPTY := Model(map[], map[])

  function WithSession(m: Model, s: Session): Model { m.(sessions := m.sessions[s.id := s]) }

  function Touched(m: Model, id: string, at: int): Model {
    if id in m.sessions then m.(sessions := m.sessions[id := m.sessions[id].(lastRequest := at)]) else m
  }

  function WithReceipt(m: Model, r: Receipt): Model { m.(receipts := m.receipts[(r.questionId, r.rung) := r]) }

  function Lookup(m: Model, id: string): Option<Session> {
    if id in m.sessions then Some(m.sessions[id]) else None
  }

  /** These are the question's rows, once each, in some order. */
  ghost predicate RowsFor(m: Model, q: string, rs: seq<Receipt>) {
    && OnePerRung(rs)
    && forall r :: r in rs <==> (q, r.rung) in m.receipts && m.receipts[(q, r.rung)] == r
  }

  /** Whatever order two stores return them in, the summaries are equal. */
  lemma SameSummary(m: Model, q: string, rs: seq<Receipt>, qs: seq<Receipt>)
    requires RowsFor(m, q, rs) && RowsFor(m, q, qs)
    ensures Summarized(rs) == Summarized(qs)
  {
    SummaryIsOfTheRows(rs, qs);
  }

  /** Each question's list is its rows. */
  ghost predicate MemRows(receipts: map<string, seq<Receipt>>, m: Model) {
    && (forall q | q in receipts :: RowsFor(m, q, receipts[q]))
    && (forall k | k in m.receipts :: k.0 in receipts && m.receipts[k].questionId == k.0 && m.receipts[k].rung == k.1)
  }

  function ListOf(receipts: map<string, seq<Receipt>>, q: string): seq<Receipt> {
    if q in receipts then receipts[q] else []
  }

  lemma ListIsRows(receipts: map<string, seq<Receipt>>, m: Model, q: string)
    requires MemRows(receipts, m)
    ensures RowsFor(m, q, ListOf(receipts, q))
  {
  }

  lemma MemRowsPut(receipts: map<string, seq<Receipt>>, m: Model, r: Receipt, rs: seq<Receipt>)
    requires MemRows(receipts, m) && RowsFor(WithReceipt(m, r), r.questionId, rs)
    ensures MemRows(receipts[r.questionId := rs], WithReceipt(m, r))
  {
    hide RowsFor;
    OthersKept(m, r);
  }

  class MemStore {
    var sessions: map<string, Session>
    var receipts: map<string, seq<Receipt>>
    ghost var model: Model

    ghost predicate Valid()
      reads this
    {
      && sessions == model.sessions
      && (forall id | id in sessions :: sessions[id].id == id)
      && MemRows(receipts, model)
    }

    constructor ()
      ensures Valid() && model == EMPTY
    {
      sessions, receipts, model := map[], map[], EMPTY;
    }

    method Get(id: string) returns (r: Option<Session>)
      requires Valid()
      ensures r == Lookup(model, id)
    {
      if id !in sessions { return None; }
      return Some(sessions[id]);
    }

    method Put(s: Session)
      requires Valid()
      modifies this
      ensures Valid() && model == WithSession(old(model), s)
    {
      sessions := sessions[s.id := s];
      model := WithSession(model, s);
    }

    method Touch(id: string, at: int) returns (known: bool)
      requires Valid()
      modifies this
      ensures Valid() && model == Touched(old(model), id, at) && known == (id in old(model).sessions)
    {
      if id !in sessions { return false; }
      var s := sessions[id];
      s := s.(lastRequest := at);
      sessions := sessions[id := s];
      model := Touched(model, id, at);
      return true;
    }

    /** Re-writing the same rung overwrites in place. */
    method PutReceipt(r: Receipt)
      requires Valid()
      modifies this
      ensures Valid() && model == WithReceipt(old(model), r)
    {
      hide RowsFor, MemRows, WithReceipt;
      var rs := ListOf(receipts, r.questionId);
      ListIsRows(receipts, model, r.questionId);
      ghost var m := WithReceipt(model, r);
      WithReceiptOnly(model, r);
      for i := 0 to |rs|
        invariant forall j | 0 <= j < i :: rs[j].rung != r.rung
        invariant this.receipts == old(this.receipts) && this.sessions == old(this.sessions)
                  && this.model == old(this.model)
      {
        if rs[i].rung == r.rung {
          RowReplaced(model, r, rs, i);
          MemRowsPut(receipts, model, r, rs[i := r]);
          receipts, model := receipts[r.questionId := rs[i := r]], m;
          return;
        }
      }
      RowAdded(model, r, rs);
      MemRowsPut(receipts, model, r, rs + [r]);
      receipts, model := receipts[r.questionId := rs + [r]], m;
    }

    method Rows(q: string) returns (rs: seq<Receipt>)
      requires Valid()
      ensures RowsFor(model, q, rs)
    {
      rs := ListOf(receipts, q);
      ListIsRows(receipts, model, q);
    }
  }

  lemma WithReceiptOnly(m: Model, r: Receipt)
    ensures WithReceipt(m, r).sessions == m.sessions
  {
  }

  lemma RowReplaced(m: Model, r: Receipt, rs: seq<Receipt>, i: nat)
    requires RowsFor(m, r.questionId, rs) && i < |rs| && rs[i].rung == r.rung
    ensures RowsFor(WithReceipt(m, r), r.questionId, rs[i := r])
  {
    var after := rs[i := r];
    var rows := WithReceipt(m, r).receipts;
    forall x ensures x in after <==> (r.questionId, x.rung) in rows && rows[(r.questionId, x.rung)] == x {
      if x.rung != r.rung {
        if x in rs {
          var j :| 0 <= j < |rs| && rs[j] == x;
          assert after[j] == x;
        }
        if x in after {
          var j :| 0 <= j < |after| && after[j] == x;
          assert rs[j] == x;
        }
      } else {
        assert after[i] == r;
        if x in after {
          var j :| 0 <= j < |after| && after[j] == x;
          assert j == i;
        }
      }
    }
  }

  lemma RowAdded(m: Model, r: Receipt, rs: seq<Receipt>)
    requires RowsFor(m, r.questionId, rs) && forall j | 0 <= j < |rs| :: rs[j].rung != r.rung
    ensures RowsFor(WithReceipt(m, r), r.questionId, rs + [r])
  {
  }

  lemma OthersKept(m: Model, r: Receipt)
    ensures forall q, rs | q != r.questionId && RowsFor(m, q, rs) :: RowsFor(WithReceipt(m, r), q, rs)
  {
  }

  // ---------------------------------------------------------------- the table

  datatype Item = SessionItem(session: Session, expires: int) | ReceiptItem(receipt: Receipt, expires: int)

  type Table = map<(string, string), Item>

  /** Seconds a row outlives its last request. */
  const ROW_TTL := 24 * 3600

  /** A query: the partition's rows whose sort key begins so, in sort-key order. */
  function Query(t: Table, pk: string, prefix: string): seq<Item> {
    var sks := Sorted(set k | k in t && k.0 == pk && prefix <= k.1 :: k.1);
    seq(|sks|, i requires 0 <= i < |sks| => assert sks[i] in sks; t[(pk, sks[i])])
  }

  /** Unset times are stamped with the clock. */
  function Stamped(at: int, now: int): int { if at == 0 then now else at }

  function SessionKey(id: string): (string, string) { (SessionPk(id), META) }

  function ReceiptKey(q: string, n: int): (string, string) { (QuestionPk(q), ReceiptSk(n)) }

  function SessionRow(s: Session): Item { SessionItem(s, s.lastRequest + ROW_TTL) }

  function ReceiptRow(r: Receipt): Item { ReceiptItem(r, r.at + ROW_TTL) }

  ghost predicate SessionRows(t: Table, m: Model) {
    forall id ::
      && (SessionKey(id) in t <==> id in m.sessions)
      && (id in m.sessions ==> m.sessions[id].id == id && t[SessionKey(id)] == SessionRow(m.sessions[id]))
  }

  ghost predicate ReceiptRows(t: Table, m: Model) {
    forall q, n ::
      && (ReceiptKey(q, n) in t <==> (q, n) in m.receipts)
      && ((q, n) in m.receipts ==>
            m.receipts[(q, n)].questionId == q && m.receipts[(q, n)].rung == n
              && t[ReceiptKey(q, n)] == ReceiptRow(m.receipts[(q, n)]))
  }

  ghost predicate NoOtherRows(t: Table) {
    forall k | k in t :: (exists id :: k == SessionKey(id)) || (exists q, n :: k == ReceiptKey(q, n))
  }

  ghost predicate Holds(t: Table, m: Model) { SessionRows(t, m) && ReceiptRows(t, m) && NoOtherRows(t) }

  /** The keys of the two kinds of row are distinct, and each kind's are injective. */
  lemma KeysApart()
    ensures forall id, id' :: SessionKey(id) == SessionKey(id') ==> id == id'
    ensures forall q, n, q', n' :: ReceiptKey(q, n) == ReceiptKey(q', n') ==> q == q' && n == n'
    ensures forall id, q, n :: SessionKey(id) != ReceiptKey(q, n)
  {
    forall id, id' ensures SessionKey(id) == SessionKey(id') ==> id == id' { PartitionsDisjoint(id, "", id', ""); }
    forall q, n, q', n' ensures ReceiptKey(q, n) == ReceiptKey(q', n') ==> q == q' && n == n' {
      PartitionsDisjoint("", q, "", q');
      if n != n' { RungKeysDiffer(n, n'); }
    }
    forall id, q, n ensures SessionKey(id) != ReceiptKey(q, n) { PartitionsDisjoint(id, q, "", ""); }
  }

  lemma HoldsSession(t: Table, m: Model, s: Session)
    requires Holds(t, m)
    ensures Holds(t[SessionKey(s.id) := SessionRow(s)], WithSession(m, s))
  {
    hide SessionKey, ReceiptKey, SessionRow, SessionRows, ReceiptRows, NoOtherRows;
    KeysApart();
    SessionRowsPut(t, m, s);
    ReceiptRowsFrame(t, t[SessionKey(s.id) := SessionRow(s)], m, WithSession(m, s));
    NoOtherRowsPut(t, SessionKey(s.id), SessionRow(s));
  }

  lemma HoldsReceipt(t: Table, m: Model, r: Receipt)
    requires Holds(t, m)
    ensures Holds(t[ReceiptKey(r.questionId, r.rung) := ReceiptRow(r)], WithReceipt(m, r))
  {
    hide SessionKey, ReceiptKey, ReceiptRow, SessionRows, ReceiptRows, NoOtherRows;
    KeysApart();
    ReceiptRowsPut(t, m, r);
    SessionRowsFrame(t, t[ReceiptKey(r.questionId, r.rung) := ReceiptRow(r)], m, WithReceipt(m, r));
    NoOtherRowsPut(t, ReceiptKey(r.questionId, r.rung), ReceiptRow(r));
  }

  lemma SessionRowsPut(t: Table, m: Model, s: Session)
    requires SessionRows(t, m) && forall id, id' :: SessionKey(id) == SessionKey(id') ==> id == id'
    ensures SessionRows(t[SessionKey(s.id) := SessionRow(s)], WithSession(m, s))
  {
    hide SessionKey, SessionRow;
  }

  lemma ReceiptRowsPut(t: Table, m: Model, r: Receipt)
    requires ReceiptRows(t, m) && forall q, n, q', n' :: ReceiptKey(q, n) == ReceiptKey(q', n') ==> q == q' && n == n'
    ensures ReceiptRows(t[ReceiptKey(r.questionId, r.rung) := ReceiptRow(r)], WithReceipt(m, r))
  {
    hide ReceiptKey, ReceiptRow;
  }

  lemma SessionRowsFrame(t: Table, t': Table, m: Model, m': Model)
    requires SessionRows(t, m) && m'.sessions == m.sessions
    requires forall id :: (SessionKey(id) in t' <==> SessionKey(id) in t)
                          && (SessionKey(id) in t ==> t'[SessionKey(id)] == t[SessionKey(id)])
    ensures SessionRows(t', m')
  {
    hide SessionKey, SessionRow;
  }

  lemma ReceiptRowsFrame(t: Table, t': Table, m: Model, m': Model)
    requires ReceiptRows(t, m) && m'.receipts == m.receipts
    requires forall q, n :: (ReceiptKey(q, n) in t' <==> ReceiptKey(q, n) in t)
                            && (ReceiptKey(q, n) in t ==> t'[ReceiptKey(q, n)] == t[ReceiptKey(q, n)])
    ensures ReceiptRows(t', m')
  {
    hide ReceiptKey, ReceiptRow;
  }

  lemma NoOtherRowsPut(t: Table, k: (string, string), x: Item)
    requires NoOtherRows(t) && ((exists id :: k == SessionKey(id)) || (exists q, n :: k == ReceiptKey(q, n)))
    ensures NoOtherRows(t[k := x])
  {
    hide SessionKey, ReceiptKey;
  }

  class DynamoStore {
    var table: Table
    ghost var model: Model

    ghost predicate Valid()
      reads this
    {
      Holds(table, model)
    }

    constructor ()
      ensures Valid() && model == EMPTY
    {
      table, model := map[], EMPTY;
    }

    method Get(id: string) returns (r: Option<Session>)
      requires Valid()
      ensures r == Lookup(model, id)
    {
      hide SessionPk, ReceiptRows, NoOtherRows;
      var key := SessionKey(id);
      if key !in table { return None; }
      return Some(table[key].session);
    }

    method Put(s: Session, now: int)
      requires Valid()
      modifies this
      ensures Valid() && model == WithSession(old(model), s.(lastRequest := Stamped(s.lastRequest, now)))
    {
      var last := s.lastRequest;
      if last == 0 { last := now; }
      var row := s.(lastRequest := last);
      HoldsSession(table, model, row);
      table := table[SessionKey(s.id) := SessionItem(row, last + ROW_TTL)];
      model := WithSession(model, row);
    }

    /** One conditional update: it refuses a session without a row. */
    method Touch(id: string, at: int) returns (known: bool)
      requires Valid()
      modifies this
      ensures Valid() && model == Touched(old(model), id, at) && known == (id in old(model).sessions)
    {
      hide SessionPk, ReceiptRows, NoOtherRows;
      var key := SessionKey(id);
      if key !in table { return false; }
      var row := table[key].session.(lastRequest := at);
      HoldsSession(table, model, row);
      table := table[key := SessionItem(row, at + ROW_TTL)];
      model := Touched(model, id, at);
      return true;
    }

    method PutReceipt(r: Receipt, now: int)
      requires Valid()
      modifies this
      ensures Valid() && model == WithReceipt(old(model), r.(at := Stamped(r.at, now)))
    {
      var at := r.at;
      if at == 0 { at := now; }
      var row := r.(at := at);
      HoldsReceipt(table, model, row);
      table := table[ReceiptKey(r.questionId, r.rung) := ReceiptItem(row, at + ROW_TTL)];
      model := WithReceipt(model, row);
    }

    method Rows(q: string) returns (rs: seq<Receipt>)
      requires Valid()
      ensures RowsFor(model, q, rs)
    {
      QueryIsRows(table, model, q);
      hide QuestionPk, Query, Holds, RowsFor, Decoded;
      rs := Decode(Query(table, QuestionPk(q), "RECEIPT#"));
    }
  }

  method Decode(items: seq<Item>) returns (rs: seq<Receipt>)
    requires forall i | 0 <= i < |items| :: items[i].ReceiptItem?
    ensures rs == Decoded(items)
  {
    rs := [];
    for i := 0 to |items|
      invariant |rs| == i && forall j | 0 <= j < i :: rs[j] == items[j].receipt
    {
      rs := rs + [items[i].receipt];
    }
  }

  function Decoded(items: seq<Item>): seq<Receipt>
    requires forall i | 0 <= i < |items| :: items[i].ReceiptItem?
  {
    seq(|items|, i requires 0 <= i < |items| => items[i].receipt)
  }

  /** The sort keys a query of the question's partition finds. */
  function RowKeys(t: Table, q: string): set<string> {
    set k | k in t && k.0 == QuestionPk(q) && "RECEIPT#" <= k.1 :: k.1
  }

  lemma RowKeysAre(t: Table, m: Model, q: string)
    requires Holds(t, m)
    ensures forall sk | sk in RowKeys(t, q) :: exists n :: (q, n) in m.receipts && sk == ReceiptSk(n)
    ensures forall n | (q, n) in m.receipts :: ReceiptSk(n) in RowKeys(t, q)
  {
  }

  /** A query of the question's partition returns its receipts, each once. */
  lemma QueryIsRows(t: Table, m: Model, q: string)
    requires Holds(t, m)
    ensures var items := Query(t, QuestionPk(q), "RECEIPT#");
            (forall i | 0 <= i < |items| :: items[i].ReceiptItem?) && RowsFor(m, q, Decoded(items))
  {
    hide RowKeys, Holds, ReceiptSk, QuestionPk, Less, RowsFor;
    RowKeysAre(t, m, q);
    QueryItems(t, q);
    var sks := Sorted(RowKeys(t, q));
    var items := Query(t, QuestionPk(q), "RECEIPT#");
    hide Query;
    forall i | 0 <= i < |items|
      ensures items[i].ReceiptItem? && m.receipts.Keys >= {(q, items[i].receipt.rung)}
      ensures m.receipts[(q, items[i].receipt.rung)] == items[i].receipt && sks[i] == ReceiptSk(items[i].receipt.rung)
    {
      assert sks[i] in sks;
      var n :| (q, n) in m.receipts && sks[i] == ReceiptSk(n);
      RowIs(t, m, q, n);
    }
    forall n | (q, n) in m.receipts ensures m.receipts[(q, n)].rung == n { RowIs(t, m, q, n); }
    DecodedRows(m, q, sks, items);
  }

  lemma QueryItems(t: Table, q: string)
    ensures var items, sks := Query(t, QuestionPk(q), "RECEIPT#"), Sorted(RowKeys(t, q));
            |items| == |sks| && forall i | 0 <= i < |sks| ::
                (QuestionPk(q), sks[i]) in t && items[i] == t[(QuestionPk(q), sks[i])]
  {
    hide QuestionPk;
    var sks := Sorted(RowKeys(t, q));
    assert forall i | 0 <= i < |sks| :: sks[i] in sks;
  }

  lemma RowIs(t: Table, m: Model, q: string, n: int)
    requires Holds(t, m) && (q, n) in m.receipts
    ensures ReceiptKey(q, n) in t && t[ReceiptKey(q, n)] == ReceiptRow(m.receipts[(q, n)])
            && m.receipts[(q, n)].rung == n
  {
    hide SessionRows, NoOtherRows;
  }

  lemma DecodedRows(m: Model, q: string, sks: seq<string>, items: seq<Item>)
    requires |items| == |sks| && forall i, j | 0 <= i < j < |sks| :: Less(sks[i], sks[j])
    requires forall i | 0 <= i < |items| :: items[i].ReceiptItem? && sks[i] == ReceiptSk(items[i].receipt.rung)
    requires forall i | 0 <= i < |items| ::
               (q, items[i].receipt.rung) in m.receipts && m.receipts[(q, items[i].receipt.rung)] == items[i].receipt
    requires forall n | (q, n) in m.receipts :: ReceiptSk(n) in sks && m.receipts[(q, n)].rung == n
    ensures RowsFor(m, q, Decoded(items))
  {
    var rs := Decoded(items);
    hide ReceiptSk;
    forall r: Receipt | (q, r.rung) in m.receipts && m.receipts[(q, r.rung)] == r ensures r in rs {
      var i :| 0 <= i < |sks| && sks[i] == ReceiptSk(r.rung);
      if items[i].receipt.rung != r.rung { RungKeysDiffer(items[i].receipt.rung, r.rung); }
      assert rs[i] == r;
    }
    forall i, j | 0 <= i < j < |rs| ensures rs[i].rung != rs[j].rung {
      NotLessItself(sks[i], sks[j]);
    }
  }

  lemma NotLessItself(a: string, b: string)
    requires Less(a, b)
    ensures a != b
  {
  }

  // ---------------------------------------------------------------- lockstep

  datatype Op =
    | Put(session: Session)
    | Touch(id: string, at: int)
    | PutReceipt(receipt: Receipt)
    | Get(id: string)
    | Summarize(questionId: string)

  datatype Answer = Done | Known(known: bool) | Found(session: Option<Session>) | Summed(summary: Summary)

  /** Its timestamp, if it carries one, is set. */
  predicate Supplied(op: Op) {
    (op.Put? ==> op.session.lastRequest != 0) && (op.PutReceipt? ==> op.receipt.at != 0)
  }

  method OnMem(s: MemStore, op: Op) returns (a: Answer, ghost rows: seq<Receipt>)
    requires s.Valid()
    modifies s
    ensures s.Valid() && s.model == After(old(s.model), op)
    ensures Answers(old(s.model), op, a, rows)
  {
    rows := [];
    match op
    case Put(x) => s.Put(x); a := Done;
    case Touch(id, at) => var k := s.Touch(id, at); a := Known(k);
    case PutReceipt(r) => s.PutReceipt(r); a := Done;
    case Get(id) => var x := s.Get(id); a := Found(x);
    case Summarize(q) =>
      var rs := s.Rows(q);
      var sum := SummarizeReceipts(rs);
      a, rows := Summed(sum), rs;
  }

  method OnDynamo(s: DynamoStore, op: Op, now: int) returns (a: Answer, ghost rows: seq<Receipt>)
    requires s.Valid() && Supplied(op)
    modifies s
    ensures s.Valid() && s.model == After(old(s.model), op)
    ensures Answers(old(s.model), op, a, rows)
  {
    rows := [];
    match op
    case Put(x) => s.Put(x, now); a := Done;
    case Touch(id, at) => var k := s.Touch(id, at); a := Known(k);
    case PutReceipt(r) => s.PutReceipt(r, now); a := Done;
    case Get(id) => var x := s.Get(id); a := Found(x);
    case Summarize(q) =>
      var rs := s.Rows(q);
      var sum := SummarizeReceipts(rs);
      a, rows := Summed(sum), rs;
  }

  function After(m: Model, op: Op): Model {
    match op
    case Put(x) => WithSession(m, x)
    case Touch(id, at) => Touched(m, id, at)
    case PutReceipt(r) => WithReceipt(m, r)
    case Get(_) => m
    case Summarize(_) => m
  }

  ghost predicate Answers(m: Model, op: Op, a: Answer, rows: seq<Receipt>) {
    match op
    case Put(_) => a == Done
    case Touch(id, _) => a == Known(id in m.sessions)
    case PutReceipt(_) => a == Done
    case Get(id) => a == Found(Lookup(m, id))
    case Summarize(q) => RowsFor(m, q, rows) && a == Summed(Summarized(rows))
  }

  /** What a store that began empty holds after these operations. */
  function AfterAll(ops: seq<Op>): Model {
    if ops == [] then EMPTY else After(AfterAll(ops[..|ops| - 1]), ops[|ops| - 1])
  }

  /** Each answer is the one the map of sessions and receipts gives, as the operations before have left it. */
  ghost predicate AllAnswered(ops: seq<Op>, answers: seq<Answer>) {
    |answers| == |ops| && forall i | 0 <= i < |ops| :: Answered(AfterAll(ops[..i]), ops[i], answers[i])
  }

  ghost predicate Answered(m: Model, op: Op, a: Answer) { exists rows :: Answers(m, op, a, rows) }

  lemma OneMoreAnswered(ops: seq<Op>, answers: seq<Answer>, op: Op, a: Answer)
    requires AllAnswered(ops, answers) && Answered(AfterAll(ops), op, a)
    ensures AllAnswered(ops + [op], answers + [a]) && AfterAll(ops + [op]) == After(AfterAll(ops), op)
  {
    hide AfterAll, After, Answered;
    assert (ops + [op])[..|ops|] == ops;
    assert forall i | 0 <= i < |ops| :: (ops + [op])[..i] == ops[..i];
    NextModel(ops, op);
  }

  lemma NextModel(ops: seq<Op>, op: Op)
    ensures AfterAll(ops + [op]) == After(AfterAll(ops), op)
  {
    assert (ops + [op])[..|ops|] == ops;
  }

  /** Any interleaving of puts, touches, receipts and reads, timestamps supplied, is answered by both stores as
      one map of sessions and receipts answers it, and so the same by both. */
  method Lockstep(ops: seq<Op>, clock: nat -> int) returns (mem: seq<Answer>, dyn: seq<Answer>)
    requires forall op | op in ops :: Supplied(op)
    ensures AllAnswered(ops, mem) && AllAnswered(ops, dyn)
    ensures mem == dyn
  {
    hide AllAnswered, AfterAll, After, Answers, Supplied;
    NothingAnswered();
    var m := new MemStore();
    var d := new DynamoStore();
    mem, dyn := [], [];
    for i := 0 to |ops|
      invariant m.Valid() && d.Valid() && m.model == d.model == AfterAll(ops[..i]) && fresh(m) && fresh(d)
      invariant mem == dyn && AllAnswered(ops[..i], mem)
    {
      assert ops[i] in ops && ops[..i + 1] == ops[..i] + [ops[i]];
      ghost var before := m.model;
      var a, rows := OnMem(m, ops[i]);
      var b, rows' := OnDynamo(d, ops[i], clock(i));
      SameAnswer(before, ops[i], a, rows, b, rows');
      OneMoreAnswered(ops[..i], mem, ops[i], a);
      mem, dyn := mem + [a], dyn + [b];
    }
    assert ops[..|ops|] == ops;
  }

  lemma NothingAnswered()
    ensures AllAnswered([], []) && AfterAll([]) == EMPTY
  {
  }

  lemma SameAnswer(m: Model, op: Op, a: Answer, rows: seq<Receipt>, b: Answer, rows': seq<Receipt>)
    requires Answers(m, op, a, rows) && Answers(m, op, b, rows')
    ensures a == b
  {
    hide RowsFor, Summarized;
    if op.Summarize? { SameSummary(m, op.questionId, rows, rows'); }
  }

  /** Recording a receipt again changes nothing. */
  lemma RecordAgain(m: Model, r: Receipt)
    ensures WithReceipt(WithReceipt(m, r), r) == WithReceipt(m, r)
  {
    assert WithReceipt(WithReceipt(m, r), r).receipts == WithReceipt(m, r).receipts;
  }

  /** A time left unset is where they part: memory keeps it unset, the table stamps the clock. */
  lemma UnsetTimesDiffer(m: Model, s: Session, r: Receipt, now: int)
    ensures WithSession(m, s) == WithSession(m, s.(lastRequest := Stamped(s.lastRequest, now))) <==>
              s.lastRequest != 0 || now == 0
    ensures WithReceipt(m, r) == WithReceipt(m, r.(at := Stamped(r.at, now))) <==> r.at != 0 || now == 0
  {
    var s' := s.(lastRequest := Stamped(s.lastRequest, now));
    var r' := r.(at := Stamped(r.at, now));
    assert WithSession(m, s).sessions[s.id] == s && WithSession(m, s').sessions[s.id] == s';
    assert WithReceipt(m, r).receipts[(r.questionId, r.rung)] == r
           && WithReceipt(m, r').receipts[(r.questionId, r.rung)] == r';
  }

  // ---------------------------------------------------------------- a run's receipts, through a store

  /** The store after these receipts were written, one by one. */
  function Recorded(m: Model, rows: seq<Receipt>): Model {
    if rows == [] then m else WithReceipt(Recorded(m, rows[..|rows| - 1]), rows[|rows| - 1])
  }

  /** For a question not asked before, what comes back is what was written. */
  lemma {:induction false} RecordedRows(m: Model, q: string, rows: seq<Receipt>)
    requires forall n :: (q, n) !in m.receipts
    requires Receipts.Climbing(rows) && forall i | 0 <= i < |rows| :: rows[i].questionId == q
    ensures RowsFor(Recorded(m, rows), q, rows)
  {
    if rows != [] {
      var head, last := rows[..|rows| - 1], rows[|rows| - 1];
      RecordedRows(m, q, head);
      RowAdded(Recorded(m, head), last, head);
      assert head + [last] == rows;
    }
  }
}

/** The receipts of a climb, written through the store and summarized from what it gives back: the approve and
    receipts handlers of internal/webapi/api.go. */
module StoredReceipts {
  import opened Text
  import opened Brain
  import opened Climbing
  import opened Receipts
  import opened LadderReceipts
  import opened Stores

  /** A question's first climb, some receipt writes lost: the summary of whatever the store then returns never
      exceeds the ladder's spend, and is the ladder's where the latest write landed. */
  lemma StoreAgreesWithLadder(m: Model, l: Ladder, go: nat -> bool, outcome: nat -> Outcome, q: string,
                              sids: nat -> string, at: nat -> int, landed: nat -> bool, rs: seq<Receipt>)
    requires l.cursor == 0 && l.spent == 0.0 && WellIndexed(l.rungs)
    requires forall i | 0 <= i < |l.rungs| :: l.rungs[i].cost >= 0.0
    requires forall n :: (q, n) !in m.receipts
    requires var stages := RunOf(l, go, outcome).stages;
             InLadder(l, stages) && RowsFor(Recorded(m, Landed(l, q, sids, at, stages, landed)), q, rs)
    ensures var run := RunOf(l, go, outcome);
            && Agrees(l, run, landed, Summarized(rs))
            && Itemizes(l, run.stages, run.ladder.spent, q, sids, at, landed, Summarized(rs))
  {
    hide RunOf, Landed, Summarized, Recorded, RowsFor, Steps, Receipts.Climbing, Agrees, Itemizes, LineIs;
    var stages := RunOf(l, go, outcome).stages;
    var rows := Landed(l, q, sids, at, stages, landed);
    SummaryAgreesWithLadder(l, go, outcome, q, sids, at, landed);
    SummaryItemizes(l, go, outcome, q, sids, at, landed);
    ClimbSteps(l, go, outcome);
    LandedRows(l, q, sids, at, stages, landed);
    LandedAre(l, q, sids, at, stages, landed);
    OfQuestion(l, q, sids, at, stages, rows);
    RecordedRows(m, q, rows);
    SameSummary(Recorded(m, rows), q, rows, rs);
  }

  lemma OfQuestion(l: Ladder, q: string, sids: nat -> string, at: nat -> int, stages: seq<Stage>, rows: seq<Receipt>)
    requires forall r | r in rows :: LineIs(l, q, sids, at, stages, r)
    ensures forall i | 0 <= i < |rows| :: rows[i].questionId == q
  {
    assert forall i | 0 <= i < |rows| :: rows[i] in rows;
  }

  /** When each row was written: an unset time is stamped by the table's clock. */
  function Times(at: nat -> int, clock: nat -> int): nat -> int { (k: nat) => Stamped(at(k), clock(k)) }

  /** The approves of one climb write its receipts as they go, and the summary is of what the table then holds. */
  method SummaryAfterRun(s: DynamoStore, l: Ladder, go: nat -> bool, outcome: nat -> Outcome, q: string,
                         sids: nat -> string, at: nat -> int, landed: nat -> bool, clock: nat -> int)
    returns (out: Summary)
    requires s.Valid() && (forall n :: (q, n) !in s.model.receipts)
    requires l.cursor == 0 && l.spent == 0.0 && WellIndexed(l.rungs)
    requires forall i | 0 <= i < |l.rungs| :: l.rungs[i].cost >= 0.0
    modifies s
    ensures var run := RunOf(l, go, outcome);
            && s.Valid() && Agrees(l, run, landed, out)
            && Itemizes(l, run.stages, run.ladder.spent, q, sids, Times(at, clock), landed, out)
  {
    hide Itemizes, LineIs;
    hide RunOf, Landed, Summarized, Recorded, RowsFor, Steps, Holds, Agrees, WithReceipt;
    ClimbSteps(l, go, outcome);
    ghost var m := s.model;
    ghost var times := Times(at, clock);
    var stages := RunOf(l, go, outcome).stages;
    NothingRecorded(m, l, q, sids, times, landed);
    for i := 0 to |stages|
      invariant s.Valid() && InLadder(l, stages[..i])
                && s.model == Recorded(m, Landed(l, q, sids, times, stages[..i], landed))
    {
      var k := stages[i].rung;
      OneMoreLanded(m, l, q, sids, times, stages[..i], stages[i], landed);
      assert stages[..i + 1] == stages[..i] + [stages[i]];
      if landed(k) { s.PutReceipt(ReceiptFor(l, q, sids(k), at(k), stages[i]), clock(k)); }
    }
    assert stages[..|stages|] == stages;
    var rs := s.Rows(q);
    out := SummarizeReceipts(rs);
    StoreAgreesWithLadder(m, l, go, outcome, q, sids, times, landed, rs);
  }

  lemma NothingRecorded(m: Model, l: Ladder, q: string, sids: nat -> string, at: nat -> int, landed: nat -> bool)
    ensures Recorded(m, Landed(l, q, sids, at, [], landed)) == m
  {
  }

  lemma OneMoreLanded(m: Model, l: Ladder, q: string, sids: nat -> string, at: nat -> int, stages: seq<Stage>, s: Stage,
                      landed: nat -> bool)
    requires InLadder(l, stages) && s.rung < |l.rungs|
    ensures InLadder(l, stages + [s])
    ensures var before := Recorded(m, Landed(l, q, sids, at, stages, landed));
            var r := ReceiptFor(l, q, sids(s.rung), at(s.rung), s);
            Recorded(m, Landed(l, q, sids, at, stages + [s], landed))
              == if landed(s.rung) then WithReceipt(before, r) else before
  {
    assert (stages + [s])[..|stages|] == stages;
    var rows := Landed(l, q, sids, at, stages, landed);
    var r := ReceiptFor(l, q, sids(s.rung), at(s.rung), s);
    assert (rows + [r])[..|rows|] == rows && rows + [] == rows;
  }
}
