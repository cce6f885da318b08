/** The BigQuery data the handlers read, and the parts of SQL their queries
    use: filters, `SUM`, `MAX`, `DISTINCT` and `GROUP BY`. */
module Warehouse {
  import opened Wrappers

  /** One row of a claims, savings or validation table. Every column is
      nullable; a handler reads only the columns its query names. Times are
      seconds since the Unix epoch, in UTC. */
  datatype Row = Row(
    idArvo: Option<string>,
    idMatricula: Option<string>,
    categoria: Option<string>,
    idPrestador: Option<string>,
    idFatura: Option<string>,
    agentId: Option<string>,
    status: Option<string>,
    submissionRunId: Option<string>,
    vlPago: Option<real>,
    vlInfo: Option<real>,
    vlGlosaArvo: Option<real>,
    createdAt: Option<int>,
    ingestedAt: Option<int>,
    updatedAt: Option<int>)

  const BlankRow := Row(None, None, None, None, None, None, None, None, None, None, None, None, None, None)

  /** The tables of the warehouse by full reference (`project.dataset.table`).
      Querying or probing a reference that is not a key raises `NotFound`. */
  type Db = map<string, seq<Row>>

  datatype Amount = VlPago | VlInfo | VlGlosaArvo
  datatype Key = IdArvo | IdMatricula | Categoria | IdPrestador | IdFatura | AgentId | Status | SubmissionRunId
  datatype Time = CreatedAt | IngestedAt | UpdatedAt

  function AmountOf(r: Row, a: Amount): Option<real>
  {
    match a
    case VlPago => r.vlPago
    case VlInfo => r.vlInfo
    case VlGlosaArvo => r.vlGlosaArvo
  }

  function KeyOf(r: Row, k: Key): Option<string>
  {
    match k
    case IdArvo => r.idArvo
    case IdMatricula => r.idMatricula
    case Categoria => r.categoria
    case IdPrestador => r.idPrestador
    case IdFatura => r.idFatura
    case AgentId => r.agentId
    case Status => r.status
    case SubmissionRunId => r.submissionRunId
  }

  function TimeOf(r: Row, t: Time): Option<int>
  {
    match t
    case CreatedAt => r.createdAt
    case IngestedAt => r.ingestedAt
    case UpdatedAt => r.updatedAt
  }

  /** A `WHERE` condition. A comparison with `NULL` is never true. */
  datatype Cond =
    | Between(time: Time, lo: int, hi: int)   // time BETWEEN lo AND hi
    | AtLeast(time: Time, lo: int)             // time >= lo
    | Below(time: Time, hi: int)               // time < hi
    | Equals(key: Key, text: string)           // key = 'text'
    | OneOf(key: Key, texts: set<string>)      // key IN (...)
    | All(left: Cond, right: Cond)             // left AND right

  predicate Holds(r: Row, c: Cond)
  {
    match c
    case Between(t, lo, hi) => TimeOf(r, t).Some? && lo <= TimeOf(r, t).value <= hi
    case AtLeast(t, lo) => TimeOf(r, t).Some? && TimeOf(r, t).value >= lo
    case Below(t, hi) => TimeOf(r, t).Some? && TimeOf(r, t).value < hi
    case Equals(k, text) => KeyOf(r, k) == Some(text)
    case OneOf(k, texts) => KeyOf(r, k).Some? && KeyOf(r, k).value in texts
    case All(left, right) => Holds(r, left) && Holds(r, right)
  }

  /** `SELECT * FROM rows WHERE c`, in table order. */
  function Select(rows: seq<Row>, c: Cond): (r: seq<Row>)
    ensures forall x :: x in r <==> x in rows && Holds(x, c)
  {
    if rows == [] then []
    else (if Holds(rows[0], c) then [rows[0]] else []) + Select(rows[1..], c)
  }

  /** `COALESCE(SUM(a), 0)`: the sum of the non-NULL values. */
  function Total(rows: seq<Row>, a: Amount): real
  {
    if rows == [] then 0.0
    else (if AmountOf(rows[0], a).Some? then AmountOf(rows[0], a).value else 0.0) + Total(rows[1..], a)
  }

  /** Some row has a non-NULL value in column `a`. */
  predicate AnyAmount(rows: seq<Row>, a: Amount)
  {
    exists i :: 0 <= i < |rows| && AmountOf(rows[i], a).Some?
  }

  /** `SUM(a)`: `NULL` when no row has a value. */
  function SqlSum(rows: seq<Row>, a: Amount): Option<real>
  {
    if AnyAmount(rows, a) then Some(Total(rows, a)) else None
  }

  /** `MAX(t)`: `NULL` when no row has a value. */
  function Latest(rows: seq<Row>, t: Time): (m: Option<int>)
    ensures m.Some? ==> exists r :: r in rows && TimeOf(r, t) == m
    ensures forall r :: r in rows && TimeOf(r, t).Some? ==> m.Some? && TimeOf(r, t).value <= m.value
  {
    if rows == [] then None
    else
      var rest := Latest(rows[1..], t);
      var here := TimeOf(rows[0], t);
      if here.None? then rest
      else if rest.None? || rest.value < here.value then here
      else rest
  }

  /** `SELECT DISTINCT k … WHERE k IS NOT NULL`. */
  function Distinct(rows: seq<Row>, k: Key): set<string>
  {
    set r | r in rows && KeyOf(r, k).Some? :: KeyOf(r, k).value
  }

  /** `SELECT DISTINCT *`: one copy of each row, in order of last
      occurrence. */
  function Dedup(rows: seq<Row>): (r: seq<Row>)
    ensures forall x :: x in r <==> x in rows
    ensures forall i, j :: 0 <= i < j < |r| ==> r[i] != r[j]
  {
    if rows == [] then []
    else if rows[0] in rows[1..] then Dedup(rows[1..])
    else [rows[0]] + Dedup(rows[1..])
  }

  /** The groups of `GROUP BY k`; rows whose key is `NULL` form one group. */
  function GroupKeys(rows: seq<Row>, k: Key): set<Option<string>>
  {
    set r | r in rows :: KeyOf(r, k)
  }

  /** The rows of group `g` of `GROUP BY k`. */
  function InGroup(rows: seq<Row>, k: Key, g: Option<string>): (r: seq<Row>)
    ensures forall x :: x in r <==> x in rows && KeyOf(x, k) == g
    ensures |r| <= |rows|
  {
    if rows == [] then []
    else (if KeyOf(rows[0], k) == g then [rows[0]] else []) + InGroup(rows[1..], k, g)
  }

  /** A key that no row has forms no group. */
  lemma {:induction false} InGroupOfNoGroup(rows: seq<Row>, k: Key, g: Option<string>)
    requires g !in GroupKeys(rows, k)
    ensures InGroup(rows, k, g) == []
    decreases |rows|
  {
    if rows != [] {
      assert rows[0] in rows;
      assert GroupKeys(rows[1..], k) <= GroupKeys(rows, k);
      InGroupOfNoGroup(rows[1..], k, g);
    }
  }

  /** `q` lists every element of `s` exactly once (an iteration order of a
      set, or the row order of a grouped result). */
  predicate Enumerates<K>(q: seq<K>, s: set<K>)
  {
    (forall x :: x in q ==> x in s) &&
    (forall x :: x in s ==> x in q) &&
    (forall i, j :: 0 <= i < j < |q| ==> q[i] != q[j])
  }

  const SecondsPerDay := 86400

  /** The calendar day (days since the epoch, UTC) of a time. */
  function DateOf(t: int): int
  {
    t / SecondsPerDay
  }

  /** `created_at >= 'YYYY-MM-DD'` compares with midnight of that day: the
      cutoff `days` days before `ts`. */
  function DayCutoff(ts: int, days: int): int
  {
    DateOf(ts - days * SecondsPerDay) * SecondsPerDay
  }

  /** The cutoff is the midnight that starts the day `days` days before `ts`. */
  lemma DayCutoffIsMidnight(ts: int, days: int)
    ensures DayCutoff(ts, days) % SecondsPerDay == 0
    ensures DayCutoff(ts, days) <= ts - days * SecondsPerDay < DayCutoff(ts, days) + SecondsPerDay
  {
    var t := ts - days * SecondsPerDay;
    assert t == DateOf(t) * SecondsPerDay + t % SecondsPerDay;
  }

  lemma {:induction false} TotalAppend(a: seq<Row>, b: seq<Row>, m: Amount)
    ensures Total(a + b, m) == Total(a, m) + Total(b, m)
    decreases |a|
  {
    if a == [] {
      assert a + b == b;
    } else {
      assert (a + b)[0] == a[0] && (a + b)[1..] == a[1..] + b;
      TotalAppend(a[1..], b, m);
    }
  }

  lemma {:induction false} TotalOfNone(rows: seq<Row>, m: Amount)
    requires !AnyAmount(rows, m)
    ensures Total(rows, m) == 0.0
    decreases |rows|
  {
    if rows != [] {
      assert AmountOf(rows[0], m).None?;
      assert !AnyAmount(rows[1..], m) by {
        forall i | 0 <= i < |rows| - 1 ensures AmountOf(rows[1..][i], m).None? {
          assert rows[1..][i] == rows[i + 1];
        }
      }
      TotalOfNone(rows[1..], m);
    }
  }

  /** `COALESCE(SUM(a), 0)` and `SUM(a)` agree whenever the latter is not
      `NULL`, and a `NULL` sum coalesces to zero. */
  lemma SqlSumCoalesces(rows: seq<Row>, m: Amount)
    ensures (if SqlSum(rows, m).Some? then SqlSum(rows, m).value else 0.0) == Total(rows, m)
  {
    if !AnyAmount(rows, m) {
      TotalOfNone(rows, m);
    }
  }

  /** A subset is no larger than its superset. */
  lemma SubsetSize<T>(a: set<T>, b: set<T>)
    requires a <= b
    ensures |a| <= |b|
  {
    assert b == a + (b - a);
  }

  lemma {:induction false} EnumeratesSize<K>(q: seq<K>, s: set<K>)
    requires Enumerates(q, s)
    ensures |q| == |s|
    decreases |q|
  {
    if q == [] {
      assert forall x :: x !in s;
      assert s == {};
    } else {
      var rest := s - {q[0]};
      assert Enumerates(q[1..], rest) by {
        forall x ensures x in q[1..] <==> x in rest {
          if x in q[1..] {
            var i :| 0 <= i < |q[1..]| && q[1..][i] == x;
            assert q[i + 1] == x;
          }
          if x in rest {
            assert x in q;
            var i :| 0 <= i < |q| && q[i] == x;
            assert i != 0;
            assert q[1..][i - 1] == x;
          }
        }
        forall i, j | 0 <= i < j < |q[1..]| ensures q[1..][i] != q[1..][j] {
          assert q[1..][i] == q[i + 1] && q[1..][j] == q[j + 1];
        }
      }
      EnumeratesSize(q[1..], rest);
    }
  }
}
