/**
 * The audit vault of App.tsx: a newest-first list of at most `Capacity` results, hydrated
 * once from the browser's storage key and written back to that key after every change.
 * `Math.random()` and the clock are inputs (`roll`, `now`); the storage key holds the list
 * itself rather than its JSON text.
 */
module AuditVault {
  import opened AuditTypes
  import opened SeqUtil

  /** `addToHistory` keeps the first 100 entries. */
  const Capacity: nat := 100

  // ---------------------------------------------------------------------------------------
  // Generated ids: `CS-` followed by Math.floor(1000 + Math.random() * 9000)
  // ---------------------------------------------------------------------------------------

  predicate IsDigit(c: char)
  {
    '0' <= c <= '9'
  }

  function DigitChar(d: nat): (c: char)
    requires d < 10
    ensures IsDigit(c) && DigitValue(c) == d
  {
    ('0' as int + d) as char
  }

  function DigitValue(c: char): nat
    requires IsDigit(c)
  {
    c as int - '0' as int
  }

  /** The decimal text of `n`, as JavaScript writes a non-negative integer: no leading zero. */
  function Decimal(n: nat): (s: string)
    ensures |s| >= 1
    ensures forall i :: 0 <= i < |s| ==> IsDigit(s[i])
    ensures s[0] == '0' ==> n == 0
    decreases n
  {
    if n < 10 then [DigitChar(n)] else Decimal(n / 10) + [DigitChar(n % 10)]
  }

  /** The number a string of digits denotes. */
  function DecimalValue(s: string): nat
    requires forall i :: 0 <= i < |s| ==> IsDigit(s[i])
  {
    if s == [] then 0 else 10 * DecimalValue(s[..|s| - 1]) + DigitValue(s[|s| - 1])
  }

  lemma {:induction false} DecimalRoundTrip(n: nat)
    ensures DecimalValue(Decimal(n)) == n
    decreases n
  {
    if n >= 10 {
      var s := Decimal(n);
      assert s[..|s| - 1] == Decimal(n / 10);
      DecimalRoundTrip(n / 10);
    }
  }

  /** Every number in the id range is written with exactly four digits. */
  lemma FourDigits(n: nat)
    requires 1000 <= n <= 9999
    ensures |Decimal(n)| == 4
  {
    assert Decimal(n / 1000) == [DigitChar(n / 1000)];
    assert n / 100 / 10 == n / 1000;
    assert Decimal(n / 100) == Decimal(n / 1000) + [DigitChar(n / 100 % 10)];
    assert n / 10 / 10 == n / 100;
    assert Decimal(n / 10) == Decimal(n / 100) + [DigitChar(n / 10 % 10)];
  }

  /** The number drawn for an id from a `Math.random()` value `roll` in [0, 1). */
  function IdNumber(roll: real): (n: int)
    requires 0.0 <= roll < 1.0
    ensures 1000 <= n <= 9999
  {
    (1000.0 + roll * 9000.0).Floor
  }

  /** The id `addToHistory` gives a new entry. */
  function NewId(roll: real): (id: string)
    requires 0.0 <= roll < 1.0
    ensures |id| == 7 && id[..3] == "CS-"
    ensures forall i :: 3 <= i < 7 ==> IsDigit(id[i])
    ensures DecimalValue(id[3..]) == IdNumber(roll)
  {
    var n := IdNumber(roll);
    FourDigits(n);
    DecimalRoundTrip(n);
    assert ("CS-" + Decimal(n))[3..] == Decimal(n);
    "CS-" + Decimal(n)
  }

  /** Two rolls give the same id exactly when they draw the same number: only 9000 ids exist. */
  lemma SameIdIffSameNumber(roll1: real, roll2: real)
    requires 0.0 <= roll1 < 1.0 && 0.0 <= roll2 < 1.0
    ensures NewId(roll1) == NewId(roll2) <==> IdNumber(roll1) == IdNumber(roll2)
  {
  }

  /** Ids are not unique: two different rolls can produce the same id. */
  lemma IdsCanCollide()
    ensures NewId(0.0) == NewId(0.0001) == "CS-1000"
  {
  }

  // ---------------------------------------------------------------------------------------
  // The list updates of the three handlers
  // ---------------------------------------------------------------------------------------

  /** `[newEntry, ...prev].slice(0, 100)`: the entry goes first, the oldest entries fall off. */
  function Added(h: seq<AuditResult>, e: AuditResult): (r: seq<AuditResult>)
    ensures |r| == if |h| + 1 <= Capacity then |h| + 1 else Capacity
    ensures r[0] == e
    ensures r[1..] == h[..|r| - 1]
  {
    Take([e] + h, Capacity)
  }

  /** `prev.filter(item => item.id !== id)`. */
  function WithoutId(h: seq<AuditResult>, id: string): (r: seq<AuditResult>)
    ensures forall i :: 0 <= i < |r| ==> r[i].id != id
    ensures forall e :: e in h && e.id != id ==> e in r
  {
    if h == [] then []
    else if h[0].id == id then WithoutId(h[1..], id)
    else [h[0]] + WithoutId(h[1..], id)
  }

  /** Deleting keeps the surviving entries in their original order. */
  lemma {:induction false} WithoutIdKeepsOrder(h: seq<AuditResult>, id: string)
    ensures IsSubsequence(WithoutId(h, id), h)
  {
    if h != [] {
      WithoutIdKeepsOrder(h[1..], id);
      var r := WithoutId(h, id);
      if h[0].id == id && r != [] {
        assert r[0] != h[0];
      }
    }
  }

  /** Deleting keeps every other entry as often as it occurred and removes all copies of the id. */
  lemma {:induction false} WithoutIdCounts(h: seq<AuditResult>, id: string, e: AuditResult)
    ensures multiset(WithoutId(h, id))[e] == if e.id == id then 0 else multiset(h)[e]
  {
    if h != [] {
      WithoutIdCounts(h[1..], id, e);
      assert h == [h[0]] + h[1..];
    }
  }

  /** How many entries carry `id`. */
  function CountId(h: seq<AuditResult>, id: string): nat
  {
    if h == [] then 0 else (if h[0].id == id then 1 else 0) + CountId(h[1..], id)
  }

  /** Deleting drops exactly the entries that carry the id, however many there are. */
  lemma {:induction false} WithoutIdLength(h: seq<AuditResult>, id: string)
    ensures |WithoutId(h, id)| == |h| - CountId(h, id)
  {
    if h != [] {
      WithoutIdLength(h[1..], id);
    }
  }

  /** Deleting an id that no entry carries changes nothing, and only then. */
  lemma {:induction false} WithoutIdAbsent(h: seq<AuditResult>, id: string)
    ensures WithoutId(h, id) == h <==> forall i :: 0 <= i < |h| ==> h[i].id != id
  {
    if h != [] && forall i :: 0 <= i < |h| ==> h[i].id != id {
      assert forall i :: 0 <= i < |h[1..]| ==> h[1..][i].id != id by {
        forall i | 0 <= i < |h[1..]| ensures h[1..][i].id != id {
          assert h[1..][i] == h[i + 1];
        }
      }
      WithoutIdAbsent(h[1..], id);
    }
  }

  /** Deleting twice is deleting once. */
  lemma {:induction false} WithoutIdIdempotent(h: seq<AuditResult>, id: string)
    ensures WithoutId(WithoutId(h, id), id) == WithoutId(h, id)
  {
    WithoutIdAbsent(WithoutId(h, id), id);
  }

  /** Deleting two ids in either order gives the same list. */
  lemma {:induction false} WithoutIdCommutes(h: seq<AuditResult>, a: string, b: string)
    ensures WithoutId(WithoutId(h, a), b) == WithoutId(WithoutId(h, b), a)
  {
    if h != [] {
      WithoutIdCommutes(h[1..], a, b);
    }
  }

  /** Deleting the id of the entry just added, when no older entry shares it and nothing was evicted, undoes the add. */
  lemma {:induction false} DeleteUndoesAdd(h: seq<AuditResult>, e: AuditResult)
    requires |h| < Capacity
    requires forall i :: 0 <= i < |h| ==> h[i].id != e.id
    ensures WithoutId(Added(h, e), e.id) == h
  {
    assert Added(h, e) == [e] + h;
    assert ([e] + h)[1..] == h;
    WithoutIdAbsent(h, e.id);
  }

  /** The list after appending `es` one after the other, starting from `h`. */
  function AddedAll(h: seq<AuditResult>, es: seq<AuditResult>): seq<AuditResult>
    decreases |es|
  {
    if es == [] then h else AddedAll(Added(h, es[0]), es[1..])
  }

  /** Appending is a sliding window: the newest entries first, cut at the capacity. */
  lemma {:induction false} AddedAllWindow(h: seq<AuditResult>, es: seq<AuditResult>)
    requires |h| <= Capacity || es != []
    ensures AddedAll(h, es) == Take(Reverse(es) + h, Capacity)
    decreases |es|
  {
    if es != [] {
      calc {
        AddedAll(h, es);
        AddedAll(Take([es[0]] + h, Capacity), es[1..]);
        { AddedAllWindow(Take([es[0]] + h, Capacity), es[1..]); }
        Take(Reverse(es[1..]) + Take([es[0]] + h, Capacity), Capacity);
        { TakeOfTake(Reverse(es[1..]), [es[0]] + h, Capacity); }
        Take(Reverse(es[1..]) + ([es[0]] + h), Capacity);
        { assert Reverse(es[1..]) + ([es[0]] + h) == Reverse(es) + h; }
        Take(Reverse(es) + h, Capacity);
      }
    }
  }

  /** After more appends than the capacity on an empty vault, exactly the `Capacity` newest remain, newest first. */
  lemma {:induction false} OnlyNewestRemain(es: seq<AuditResult>)
    requires |es| >= Capacity
    ensures |AddedAll([], es)| == Capacity
    ensures forall i :: 0 <= i < Capacity ==> AddedAll([], es)[i] == es[|es| - 1 - i]
  {
    AddedAllWindow([], es);
    assert Reverse(es) + [] == Reverse(es);
  }

  // ---------------------------------------------------------------------------------------
  // Storage: the mount-time load and what the write-through leaves behind
  // ---------------------------------------------------------------------------------------

  /**
   * What `localStorage.getItem` gives at mount, with the outcome of `JSON.parse` on it:
   * no value, the empty string (falsy, so never parsed), text that does not parse, a value
   * that is not an array, or an array.
   */
  datatype SavedVault = Missing | Blank | Unparseable | NonArray | Array(items: seq<AuditResult>)

  /** The history the mount effect leaves: the saved array if there is one, otherwise the initial `[]`. */
  function Hydrated(saved: SavedVault): (r: seq<AuditResult>)
    ensures saved.Array? ==> r == saved.items
    ensures !saved.Array? ==> r == []
  {
    match saved
    case Array(items) => items
    case _ => []
  }

  /**
   * What the storage key holds after the write-through of `h`. For the records this model
   * represents, `JSON.stringify` parses back to the same array, so reloading restores the list
   * at any length (the README's "Left out" section names the values for which it does not).
   */
  function Persisted(h: seq<AuditResult>): (r: SavedVault)
    ensures Hydrated(r) == h
  {
    Array(h)
  }

  /** A loaded list longer than the capacity is kept whole; the next add cuts it to `Capacity`. */
  lemma LoadedListNotCapped(h: seq<AuditResult>, e: AuditResult)
    requires |h| > Capacity
    ensures |Hydrated(Array(h))| > Capacity
    ensures |Added(Hydrated(Array(h)), e)| == Capacity
  {
  }

  /** Reloading after an add gives back every field of the added draft, its id and its timestamp. */
  lemma AddThenReload(h: seq<AuditResult>, d: AuditDraft, roll: real, now: string)
    requires 0.0 <= roll < 1.0
    ensures var back := Hydrated(Persisted(Added(h, Stamp(d, NewId(roll), now))));
      Unstamp(back[0]) == d && back[0].id == NewId(roll) && back[0].id != "" && back[0].timestamp == now
  {
  }

  /** Three adds then a delete: A, B, C read [C, B, A]; deleting B's id leaves [C, A]. */
  lemma {:induction false} AddThreeDeleteMiddle(a: AuditResult, b: AuditResult, c: AuditResult)
    requires a.id != b.id && c.id != b.id
    ensures AddedAll([], [a, b, c]) == [c, b, a]
    ensures WithoutId([c, b, a], b.id) == [c, a]
  {
    AddedAllWindow([], [a, b, c]);
    assert Reverse([a, b, c]) == [c, b, a] by {
      assert Reverse([c]) == [c];
      assert [a, b, c][1..] == [b, c];
      assert [b, c][1..] == [c];
    }
    assert [c, b, a][1..] == [b, a];
    assert [b, a][1..] == [a];
    assert WithoutId([a], b.id) == [a] + WithoutId([], b.id);
    assert WithoutId([b, a], b.id) == [a];
  }

  /** Two adds that draw the same id are both removed by one delete. */
  lemma DeleteRemovesEveryDuplicate(h: seq<AuditResult>, d1: AuditDraft, d2: AuditDraft, now: string)
    requires |h| + 2 <= Capacity
    ensures var e1 := Stamp(d1, NewId(0.0), now);
      var e2 := Stamp(d2, NewId(0.0001), now);
      WithoutId(Added(Added(h, e1), e2), e1.id) == WithoutId(h, e1.id)
  {
  }

  // ---------------------------------------------------------------------------------------
  // The store as App.tsx keeps it
  // ---------------------------------------------------------------------------------------

  /** The tool tabs whose completion callbacks record a result. */
  datatype ReportingTab = CodeAuditorTab | CloudGuardTab | OsintScanTab

  /** The `type` each tab's callback writes over the result: CODE, CLOUD, OSINT. */
  function TabType(tab: ReportingTab): (t: AuditType)
    ensures t == CODE <==> tab == CodeAuditorTab
    ensures t == CLOUD <==> tab == CloudGuardTab
    ensures t == OSINT <==> tab == OsintScanTab
  {
    match tab
    case CodeAuditorTab => CODE
    case CloudGuardTab => CLOUD
    case OsintScanTab => OSINT
  }

  class Vault {
    /** The `auditHistory` state. */
    var history: seq<AuditResult>
    /** The value of the `ciphersync_audit_vault` storage key. */
    var stored: seq<AuditResult>

    /** Write-through: the key always holds the current history. */
    ghost predicate Valid()
      reads this
    {
      stored == history
    }

    /** Mount: the load effect, then the write-through effect, so a rejected blob is overwritten by `[]`. */
    constructor Mount(saved: SavedVault)
      ensures Valid()
      ensures history == Hydrated(saved)
    {
      history := Hydrated(saved);
      stored := history;
    }

    /** The write-through effect. */
    method Persist()
      modifies this`stored
      ensures Valid()
    {
      stored := history;
    }

    /** `addToHistory`: stamp the draft, prepend it, keep at most `Capacity` entries. */
    method Add(draft: AuditDraft, roll: real, now: string)
      requires Valid()
      requires 0.0 <= roll < 1.0
      modifies this
      ensures Valid()
      ensures history == Added(old(history), Stamp(draft, NewId(roll), now))
      ensures Unstamp(history[0]) == draft && history[0].id == NewId(roll) && history[0].timestamp == now
      ensures history[1..] == old(history)[..|history| - 1]
    {
      var entry := Stamp(draft, NewId(roll), now);
      history := Added(history, entry);
      Persist();
    }

    /** `deleteHistoryItem`: every entry carrying `id` goes, the others stay in order. */
    method Delete(id: string)
      requires Valid()
      modifies this
      ensures Valid()
      ensures history == WithoutId(old(history), id)
      ensures forall i :: 0 <= i < |history| ==> history[i].id != id
      ensures IsSubsequence(history, old(history))
    {
      WithoutIdKeepsOrder(history, id);
      history := WithoutId(history, id);
      Persist();
    }

    /** `purgeHistory`. */
    method Purge()
      requires Valid()
      modifies this
      ensures Valid()
      ensures history == []
    {
      history := [];
      Persist();
    }

    /** A tool tab's `onAuditComplete`: the result is recorded with the tab's type. */
    method RecordAudit(tab: ReportingTab, result: AuditDraft, roll: real, now: string)
      requires Valid()
      requires 0.0 <= roll < 1.0
      modifies this
      ensures Valid()
      ensures history == Added(old(history), Stamp(result.(kind := TabType(tab)), NewId(roll), now))
      ensures history[0].kind == TabType(tab)
      ensures history[0].content == result.content && history[0].summary == result.summary
    {
      Add(result.(kind := TabType(tab)), roll, now);
    }
  }
}
