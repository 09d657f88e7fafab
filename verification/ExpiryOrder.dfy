/** The bytes of the expiry index: their order is the order pruning needs, they read back as they
    were written, and pruning in several passes is pruning once. */
module ExpiryOrder {
  import opened Words
  import opened Wrappers
  import opened Decimals
  import opened DecimalText
  import opened LedgerTypes
  import opened Ledger
  import opened LedgerInvariant
  import opened IndexSteps

  const WORD: nat := 8
  const WORD_LIMIT: nat := 0x1_0000_0000_0000_0000
  const CHARGE_KIND: Byte := 99 // 'c'
  const RETIRE_KIND: Byte := 114 // 'r'

  // ---------- encoding ----------

  predicate Ascii(s: string) { forall i :: 0 <= i < |s| ==> 0 < s[i] as int < 128 }

  function Bytes(s: string): (b: seq<Byte>)
    requires Ascii(s)
  {
    seq(|s|, i requires 0 <= i < |s| => s[i] as int)
  }

  function MonthDigits(start: int): (s: string) { if start < 0 then "-" + Digits(-start) else Digits(start) }

  function WindowName(w: Window): (s: string)
  {
    match w
    case InFlight => "active"
    case Minute => "minute"
    case FiveHours => "five_hours"
    case SevenDays => "seven_days"
    case Month(start) => "month_" + MonthDigits(start)
  }

  /** Keys that projections write: valid names and a positive 64-bit instant. */
  predicate Writable(k: ExpiryKey)
  {
    && 0 < k.at < WORD_LIMIT && ValidKey(k.id)
    && (k.Charge? ==> ValidKey(k.account))
  }

  function Identity(k: ExpiryKey): (b: seq<Byte>)
    requires Writable(k)
  {
    NamesAreAscii(k);
    match k
    case Charge(_, a, w, id) => Bytes(a) + [0] + Bytes(WindowName(w)) + [0] + Bytes(id)
    case Retire(_, id) => Bytes(id)
  }

  function Encode(k: ExpiryKey): (b: seq<Byte>)
    requires Writable(k)
  {
    BigEndian(k.at, WORD) + [if k.Charge? then CHARGE_KIND else RETIRE_KIND] + Identity(k)
  }

  lemma KeyIsAscii(s: string)
    requires ValidKey(s)
    ensures Ascii(s)
  {}

  lemma WindowIsAscii(w: Window)
    ensures Ascii(WindowName(w))
  {
    if w.Month? {
      DigitsRead(if w.start < 0 then -w.start else w.start);
    }
  }

  lemma NamesAreAscii(k: ExpiryKey)
    requires Writable(k)
    ensures Ascii(k.id) && (k.Charge? ==> Ascii(k.account) && Ascii(WindowName(k.window)))
  {
    hide WindowName, ValidKey;
    KeyIsAscii(k.id);
    if k.Charge? {
      KeyIsAscii(k.account);
      WindowIsAscii(k.window);
    }
  }

  // ---------- order ----------

  /** The order in which an ordered store of byte keys is walked. */
  predicate Less(a: seq<Byte>, b: seq<Byte>)
  {
    if |b| == 0 then false
    else if |a| == 0 then true
    else a[0] < b[0] || (a[0] == b[0] && Less(a[1..], b[1..]))
  }

  lemma {:induction false} LessAppend(a: seq<Byte>, b: seq<Byte>, x: seq<Byte>, y: seq<Byte>)
    requires |a| == |b|
    ensures Less(a + x, b + y) <==> Less(a, b) || (a == b && Less(x, y))
    decreases |a|
  {
    if |a| == 0 {
      assert a + x == x && b + y == y;
    } else {
      assert (a + x)[1..] == a[1..] + x && (b + y)[1..] == b[1..] + y;
      LessAppend(a[1..], b[1..], x, y);
      assert a == [a[0]] + a[1..] && b == [b[0]] + b[1..];
    }
  }

  lemma {:induction false} LessAsymmetric(a: seq<Byte>, b: seq<Byte>)
    requires Less(a, b)
    ensures !Less(b, a)
    decreases |a|
  {
    if |a| > 0 && a[0] == b[0] { LessAsymmetric(a[1..], b[1..]); }
  }

  lemma {:induction false} LessTransitive(a: seq<Byte>, b: seq<Byte>, c: seq<Byte>)
    requires Less(a, b) && Less(b, c)
    ensures Less(a, c)
    decreases |a|
  {
    if |a| > 0 && a[0] == b[0] && b[0] == c[0] { LessTransitive(a[1..], b[1..], c[1..]); }
  }

  lemma {:induction false} LessTotal(a: seq<Byte>, b: seq<Byte>)
    requires a != b
    ensures Less(a, b) || Less(b, a)
    decreases |a|
  {
    if |a| > 0 && |b| > 0 && a[0] == b[0] {
      assert a == [a[0]] + a[1..] && b == [b[0]] + b[1..];
      LessTotal(a[1..], b[1..]);
    }
  }

  /** Big-endian words of the same width are ordered like the numbers they denote. */
  lemma {:induction false} BigEndianOrder(m: nat, n: nat, width: nat)
    requires m < Power(width) && n < Power(width)
    ensures Less(BigEndian(m, width), BigEndian(n, width)) <==> m < n
    ensures BigEndian(m, width) == BigEndian(n, width) <==> m == n
    decreases width
  {
    if width > 0 {
      BigEndianOrder(m / 256, n / 256, width - 1);
      LessAppend(BigEndian(m / 256, width - 1), BigEndian(n / 256, width - 1), [m % 256], [n % 256]);
      assert Less([m % 256], [n % 256]) <==> m % 256 < n % 256;
      var a, b := BigEndian(m, width), BigEndian(n, width);
      assert a[..width - 1] == BigEndian(m / 256, width - 1) && b[..width - 1] == BigEndian(n / 256, width - 1);
      assert a[width - 1] == m % 256 && b[width - 1] == n % 256;
    }
  }

  lemma WordLimit()
    ensures Power(WORD) == WORD_LIMIT
  {
    assert Power(4) == 0x1_0000_0000;
  }

  /** Earlier keys, and charges before retirements at the same instant, come first in byte order. */
  lemma EncodedOrder(x: ExpiryKey, y: ExpiryKey)
    requires Writable(x) && Writable(y) && Before(x, y)
    ensures Less(Encode(x), Encode(y))
  {
    hide Identity, BigEndian, ValidKey;
    WordLimit();
    var a, b := BigEndian(x.at, WORD), BigEndian(y.at, WORD);
    var c, d := [if x.Charge? then CHARGE_KIND else RETIRE_KIND], [if y.Charge? then CHARGE_KIND else RETIRE_KIND];
    BigEndianOrder(x.at, y.at, WORD);
    LessAppend(a, b, c, d);
    LessAppend(a + c, b + d, Identity(x), Identity(y));
    assert c[1..] == [] && d[1..] == [];
  }

  /** The key an ordered cursor yields first. */
  ghost predicate ByteLeast(keys: set<ExpiryKey>, k: ExpiryKey)
    requires forall x :: x in keys ==> Writable(x)
  {
    k in keys && forall x :: x in keys && x != k ==> Less(Encode(k), Encode(x))
  }

  /** It is one that no other key must precede. */
  lemma CursorOrder(keys: set<ExpiryKey>, k: ExpiryKey)
    requires forall x :: x in keys ==> Writable(x)
    requires ByteLeast(keys, k)
    ensures FirstKey(keys, k)
  {
    hide Encode, Less, Writable;
    forall x | x in keys ensures !Before(x, k) {
      if Before(x, k) {
        EncodedOrder(x, k);
        LessAsymmetric(Encode(x), Encode(k));
      }
    }
  }

  // ---------- decoding ----------

  datatype RawKey =
    | RawCharge(at: nat, account: seq<Byte>, window: seq<Byte>, id: seq<Byte>)
    | RawRetire(at: nat, id: seq<Byte>)

  /** The parts of b between zero bytes. */
  function Split(b: seq<Byte>): (parts: seq<seq<Byte>>)
    ensures |parts| >= 1
  {
    if |b| == 0 then [[]]
    else
      var rest := Split(b[1..]);
      if b[0] == 0 then [[]] + rest else [[b[0]] + rest[0]] + rest[1..]
  }

  /** How pruning reads a key; None is an unreadable index. */
  function Decode(b: seq<Byte>): (r: Option<RawKey>)
  {
    if |b| < WORD + 2 then None
    else
      var at := Number(b[..WORD]);
      var rest := b[WORD + 1..];
      if b[WORD] == CHARGE_KIND then
        if |Split(rest)| != 3 then None else Some(RawCharge(at, Split(rest)[0], Split(rest)[1], Split(rest)[2]))
      else if b[WORD] == RETIRE_KIND then Some(RawRetire(at, rest))
      else None
  }

  function Raw(k: ExpiryKey): (r: RawKey)
    requires Writable(k)
  {
    NamesAreAscii(k);
    match k
    case Charge(at, a, w, id) => RawCharge(at, Bytes(a), Bytes(WindowName(w)), Bytes(id))
    case Retire(at, id) => RawRetire(at, Bytes(id))
  }

  predicate NoZero(b: seq<Byte>) { forall i :: 0 <= i < |b| ==> b[i] != 0 }

  lemma {:induction false} SplitOne(b: seq<Byte>)
    requires NoZero(b)
    ensures Split(b) == [b]
    decreases |b|
  {
    if |b| > 0 {
      SplitOne(b[1..]);
      assert [b[0]] + b[1..] == b;
    }
  }

  lemma {:induction false} SplitFirst(b: seq<Byte>, rest: seq<Byte>)
    requires NoZero(b)
    ensures Split(b + [0] + rest) == [b] + Split(rest)
    decreases |b|
  {
    var s := b + [0] + rest;
    if |b| == 0 {
      assert s[1..] == rest;
    } else {
      SplitFirst(b[1..], rest);
      assert s[1..] == b[1..] + [0] + rest;
      assert [b[0]] + b[1..] == b;
    }
  }

  lemma BytesHaveNoZero(s: string)
    requires Ascii(s)
    ensures NoZero(Bytes(s)) && |Bytes(s)| == |s|
  {}

  /** A written key reads back as it was written. */
  lemma DecodeEncode(k: ExpiryKey)
    requires Writable(k)
    ensures Decode(Encode(k)) == Some(Raw(k))
  {
    hide BigEndian, Number, WindowName, Split, Ascii, Bytes, NoZero;
    NamesAreAscii(k);
    BytesHaveNoZero(k.id);
    var b := Encode(k);
    WordLimit();
    NumberReads(k.at, WORD);
    assert b[..WORD] == BigEndian(k.at, WORD);
    assert b[WORD + 1..] == Identity(k);
    if k.Charge? {
      BytesHaveNoZero(k.account);
      BytesHaveNoZero(WindowName(k.window));
      var rest := Bytes(WindowName(k.window)) + [0] + Bytes(k.id);
      assert Identity(k) == Bytes(k.account) + [0] + rest;
      SplitFirst(Bytes(k.account), rest);
      SplitFirst(Bytes(WindowName(k.window)), Bytes(k.id));
      SplitOne(Bytes(k.id));
    }
  }

  lemma BytesInjective(s: string, t: string)
    requires Ascii(s) && Ascii(t) && Bytes(s) == Bytes(t)
    ensures s == t
  {
    forall i | 0 <= i < |s| ensures s[i] == t[i] {
      assert Bytes(s)[i] == Bytes(t)[i];
    }
  }

  lemma WindowNameInjective(v: Window, w: Window)
    requires WindowName(v) == WindowName(w)
    ensures v == w
  {
    var m, n := WindowName(v), WindowName(w);
    assert m[0] == n[0] && m[1] == n[1];
    if v.Month? && w.Month? {
      MonthNameInjective(v.start, w.start);
    }
  }

  lemma MonthNameInjective(m: int, n: int)
    requires WindowName(Month(m)) == WindowName(Month(n))
    ensures m == n
  {
    hide Digits;
    assert WindowName(Month(m))[6..] == MonthDigits(m) && WindowName(Month(n))[6..] == MonthDigits(n);
    DigitsRead(if m < 0 then -m else m);
    DigitsRead(if n < 0 then -n else n);
    assert m < 0 ==> MonthDigits(m)[0] == '-' && MonthDigits(m)[1..] == Digits(-m);
    assert n < 0 ==> MonthDigits(n)[0] == '-' && MonthDigits(n)[1..] == Digits(-n);
    assert m >= 0 ==> IsDigit(MonthDigits(m)[0]);
    assert n >= 0 ==> IsDigit(MonthDigits(n)[0]);
  }

  /** Different keys have different bytes. */
  lemma EncodeInjective(x: ExpiryKey, y: ExpiryKey)
    requires Writable(x) && Writable(y) && Encode(x) == Encode(y)
    ensures x == y
  {
    hide Encode, Decode, WindowName, Ascii, Bytes, ValidKey;
    DecodeEncode(x);
    DecodeEncode(y);
    NamesAreAscii(x);
    NamesAreAscii(y);
    BytesInjective(x.id, y.id);
    if x.Charge? {
      BytesInjective(x.account, y.account);
      BytesInjective(WindowName(x.window), WindowName(y.window));
      WindowNameInjective(x.window, y.window);
    }
  }

  /** Every key a valid journal holds can be written. */
  lemma StoredKeysWritable(f: Core, cfg: Config, k: ExpiryKey)
    requires Inv(f, cfg) && k in f.expiry
    requires forall id :: id in f.receipts ==> f.receipts[id].monthEnd < WORD_LIMIT
    ensures Writable(k)
  {
    hide FoldsFit, ValidKey, QuotaMonth, EventsOk, ModeOk;
    assert KeySound(f.receipts, k);
    var r := f.receipts[k.id];
    assert ReceiptOk(f, cfg, k.id);
    if k.Charge? {
      var i :| 0 <= i < |r.accounts| && r.accounts[i].account == k.account;
    }
  }

  lemma {:induction false} SomeByteLeast(keys: set<ExpiryKey>) returns (k: ExpiryKey)
    requires keys != {} && forall x :: x in keys ==> Writable(x)
    ensures ByteLeast(keys, k)
    decreases keys
  {
    hide Encode, Less, Writable;
    k :| k in keys;
    if keys != {k} {
      var y := SomeByteLeast(keys - {k});
      k := LesserKey(keys, k, y);
    }
  }

  lemma LesserKey(keys: set<ExpiryKey>, k: ExpiryKey, y: ExpiryKey) returns (least: ExpiryKey)
    requires k in keys && (forall x :: x in keys ==> Writable(x)) && ByteLeast(keys - {k}, y)
    ensures ByteLeast(keys, least)
  {
    hide Encode, Less, Writable;
    if Encode(k) == Encode(y) { EncodeInjective(k, y); }
    LessTotal(Encode(k), Encode(y));
    least := if Less(Encode(k), Encode(y)) then k else y;
    forall x | x in keys && x != least ensures Less(Encode(least), Encode(x)) {
      if x != k && x != y && least == k { LessTransitive(Encode(k), Encode(y), Encode(x)); }
    }
  }

  /** Every month ends within the range of a stored instant. */
  ghost predicate CalendarFits(cfg: Config)
  {
    forall z, t :: cfg.month(z, t).1 < WORD_LIMIT
  }

  /** In a valid journal every set of keys still to visit can be written, has one key that comes
      first in byte order, and that key is one that the pruning loop may take next. */
  lemma JournalCursor(f: Core, cfg: Config, todo: set<ExpiryKey>) returns (k: ExpiryKey)
    requires Inv(f, cfg) && CalendarFits(cfg) && {} != todo <= f.expiry
    ensures forall x :: x in todo ==> Writable(x)
    ensures ByteLeast(todo, k) && (forall x :: ByteLeast(todo, x) ==> x == k)
    ensures FirstKey(todo, k)
  {
    hide Inv, CalendarFits, Writable, FirstKey, Less, Encode;
    MonthsFit(f, cfg);
    forall x | x in todo ensures Writable(x) { StoredKeysWritable(f, cfg, x); }
    k := SomeByteLeast(todo);
    CursorOrder(todo, k);
    forall x | ByteLeast(todo, x) ensures x == k {
      if x != k { LessAsymmetric(Encode(x), Encode(k)); }
    }
  }

  lemma MonthsFit(f: Core, cfg: Config)
    requires Inv(f, cfg) && CalendarFits(cfg)
    ensures forall id :: id in f.receipts ==> f.receipts[id].monthEnd < WORD_LIMIT
  {
    hide FoldsFit, ExpiryOk, SwitchOk, EventsOk, LeasesOk, FactsOk, ModeOk, WellFormed;
    forall id | id in f.receipts ensures f.receipts[id].monthEnd < WORD_LIMIT {
      assert ReceiptOk(f, cfg, id);
      assert cfg.month(f.zone, f.receipts[id].admittedAt).1 < WORD_LIMIT;
    }
  }

  // ---------- events ----------

  /** The key of one admission in the rate history. */
  function EventKey(e: Event): (b: seq<Byte>)
    requires ValidKey(e.id) && ValidKey(e.account) && 0 < e.at < WORD_LIMIT
  {
    KeyIsAscii(e.id);
    KeyIsAscii(e.account);
    BigEndian(e.at, WORD) + Bytes(e.id + ":" + e.account)
  }

  /** Event keys are walked in time order, and different admissions have different keys. */
  lemma EventKeyOrder(x: Event, y: Event)
    requires ValidKey(x.id) && ValidKey(x.account) && 0 < x.at < WORD_LIMIT
    requires ValidKey(y.id) && ValidKey(y.account) && 0 < y.at < WORD_LIMIT
    ensures x.at < y.at ==> Less(EventKey(x), EventKey(y))
    ensures EventKey(x) == EventKey(y) ==> x == y
  {
    hide BigEndian, Bytes, Less;
    WordLimit();
    BigEndianOrder(x.at, y.at, WORD);
    KeyIsAscii(x.id);
    KeyIsAscii(x.account);
    KeyIsAscii(y.id);
    KeyIsAscii(y.account);
    var a, b := x.id + ":" + x.account, y.id + ":" + y.account;
    LessAppend(BigEndian(x.at, WORD), BigEndian(y.at, WORD), Bytes(a), Bytes(b));
    if EventKey(x) == EventKey(y) {
      assert EventKey(x)[..WORD] == BigEndian(x.at, WORD) && EventKey(y)[..WORD] == BigEndian(y.at, WORD);
      assert EventKey(x)[WORD..] == Bytes(a) && EventKey(y)[WORD..] == Bytes(b);
      BytesInjective(a, b);
      SameParts(x.id, x.account, y.id, y.account);
    }
  }

  /** No valid key contains the separator. */
  lemma SeparatorAfter(id: Id, account: Account, s: string, n: nat)
    requires ValidKey(id) && s == id + ":" + account && n < |s| && s[n] == ':'
    ensures |id| <= n
  {
    assert forall i :: 0 <= i < |id| ==> s[i] == id[i] && ValidKeyChar(s[i]);
  }

  lemma SameParts(id: Id, account: Account, id': Id, account': Account)
    requires ValidKey(id) && ValidKey(id') && id + ":" + account == id' + ":" + account'
    ensures id == id' && account == account'
  {
    var s := id + ":" + account;
    assert s[|id|] == ':' && s[|id'|] == ':';
    SeparatorAfter(id, account, s, |id'|);
    SeparatorAfter(id', account', s, |id|);
    assert s[..|id|] == id && s[..|id'|] == id';
    assert s[|id| + 1..] == account && s[|id'| + 1..] == account';
  }

  // ---------- passes ----------

  /** Pruning at an earlier instant first makes no difference. */
  lemma PruneTwice(f: Core, t: int, later: int)
    requires t <= later
    ensures PruneQuota(PruneQuota(f, t), later) == PruneQuota(f, later)
  {
    var g := PruneQuota(f, t);
    assert forall k :: Due(g, later, k) <==> Due(f, later, k);
    assert RetiredIds(f, t) + RetiredIds(g, later) == RetiredIds(f, later) by {
      forall id | id in RetiredIds(f, later) ensures id in RetiredIds(f, t) + RetiredIds(g, later) {
        var k :| k in f.expiry && k.Retire? && Due(f, later, k) && k.id == id;
        if !Due(f, t, k) { assert k in g.expiry; }
      }
    }
    assert PruneQuota(g, later).receipts == f.receipts - RetiredIds(f, t) - RetiredIds(g, later);
  }
}
