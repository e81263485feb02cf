/**
 * The values a record is written to and read from the document store as,
 * the dates inside them, and the typed casts (`as? String ?: default`,
 * `(x as? Number)?.toInt() ?: 0`, ...) the record codecs use to read them back.
 */
module Values {

  import opened Wrappers

  /**
   * A point in time (java.util.Date), by its calendar fields in the device's
   * time zone: the year, the month 1..12 (Calendar.MONTH + 1), the day of the
   * month, and the milliseconds since midnight.
   */
  datatype Date = Date(year: int, month: int, day: int, timeOfDay: int)

  /**
   * A value in a document map. Integral and floating numbers are distinct, as
   * they are in the store (Long and Double); a java.util.Date put into a map
   * by `toMap` is not the store's Timestamp, which is what reading a document
   * back yields.
   */
  datatype Value =
    | StrVal(s: string)
    | LongVal(i: int)
    | DoubleVal(d: real)
    | BoolVal(b: bool)
    | DateVal(date: Date)
    | TimestampVal(stamp: Date)
    | OtherVal

  /** A document: Kotlin's `Map<String, Any?>` (an absent key and a null value read the same). */
  type Doc = map<string, Value>

  const INT_MIN: int := -0x8000_0000
  const INT_MAX: int := 0x7FFF_FFFF
  const TWO_32: int := 0x1_0000_0000

  /** Kotlin's 32-bit `Int`. */
  type Int32 = x: int | INT_MIN <= x <= INT_MAX

  /** `map[key] as? String ?: default` */
  function StringOr(m: Doc, key: string, default: string): string
  {
    if key in m && m[key].StrVal? then m[key].s else default
  }

  /** `map[key] as? Boolean ?: default` */
  function BoolOr(m: Doc, key: string, default: bool): bool
  {
    if key in m && m[key].BoolVal? then m[key].b else default
  }

  /** `(map[key] as? Number)?.toDouble() ?: 0.0` */
  function NumberToReal(m: Doc, key: string): real
  {
    if key in m && m[key].LongVal? then m[key].i as real
    else if key in m && m[key].DoubleVal? then m[key].d
    else 0.0
  }

  /** `(map[key] as? Number)?.toInt() ?: 0` */
  function NumberToInt(m: Doc, key: string): Int32
  {
    if key in m && m[key].LongVal? then WrapToInt32(m[key].i)
    else if key in m && m[key].DoubleVal? then TruncateToInt32(m[key].d)
    else 0
  }

  /** `(map[key] as? Timestamp)?.toDate() ?: Date()`, where `now` is the clock's reading. */
  function TimestampOr(m: Doc, key: string, now: Date): Date
  {
    if key in m && m[key].TimestampVal? then m[key].stamp else now
  }

  /** `Long.toInt()`: keeps the low 32 bits, read as two's complement. */
  function WrapToInt32(i: int): (r: Int32)
    ensures (r - i) % TWO_32 == 0
    ensures INT_MIN <= i <= INT_MAX ==> r == i
  {
    (i - INT_MIN) % TWO_32 + INT_MIN
  }

  /** `Double.toInt()`: rounds toward zero and saturates at the ends of the Int range. */
  function TruncateToInt32(d: real): (r: Int32)
    ensures 0.0 <= d ==> r as real <= d && (r == INT_MAX || d < r as real + 1.0)
    ensures d < 0.0 ==> d <= r as real && (r == INT_MIN || r as real - 1.0 < d)
  {
    if d >= INT_MAX as real then INT_MAX
    else if d <= INT_MIN as real then INT_MIN
    else if d >= 0.0 then d.Floor
    else -((-d).Floor)
  }

  /** What the store gives back for a value written to it: a Date comes back as a Timestamp. */
  function Stored(v: Value): Value
  {
    if v.DateVal? then TimestampVal(v.date) else v
  }

  /** A document as written by `set`/`add` and read back by a snapshot listener. */
  function StoredDoc(m: Doc): (r: Doc)
    ensures r.Keys == m.Keys
    ensures forall k :: k in m ==> r[k] == Stored(m[k])
  {
    map k | k in m :: Stored(m[k])
  }

  /** A document read back from the store holds no Date, only Timestamps. */
  predicate Dateless(m: Doc)
  {
    forall k :: k in m ==> !m[k].DateVal?
  }

  /**
   * The store's conversion keeps the document's keys, leaves no Date behind,
   * and changes nothing in a document that holds no Date: so storing a
   * document a second time gives it back as it is.
   */
  lemma StoredDocNormalizes(m: Doc)
    ensures StoredDoc(m).Keys == m.Keys
    ensures Dateless(StoredDoc(m))
    ensures Dateless(m) ==> StoredDoc(m) == m
    ensures StoredDoc(StoredDoc(m)) == StoredDoc(m)
  {
  }
}
