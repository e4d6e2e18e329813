/**
 * Documents of the `events` collection and their wire form (app.py,
 * `get_events`, the loop that rewrites every fetched document in place).
 */
module Documents {
  import Events

  /** A MongoDB ObjectId: twelve bytes, read as a number below 16^24 = 2^96. */
  const ID_DIGITS: nat := 24
  type ObjectId = n: nat | n < Pow16(ID_DIGITS)

  /** `_id` before and after `str(...)`. */
  datatype DocId = Native(oid: ObjectId) | Textual(text: string)

  /** A stored document: the record `insert_one` added an `_id` to. */
  datatype Doc = Doc(id: DocId, rec: Events.Record)

  function Pow16(k: nat): (p: nat)
    ensures p >= 1
  {
    if k == 0 then 1 else 16 * Pow16(k - 1)
  }

  predicate IsHexDigit(c: char) {
    '0' <= c <= '9' || 'a' <= c <= 'f'
  }

  function HexDigit(d: nat): (c: char)
    requires d < 16
    ensures IsHexDigit(c)
  {
    if d < 10 then ('0' as int + d) as char else ('a' as int + d - 10) as char
  }

  function DigitValue(c: char): nat {
    if '0' <= c <= '9' then c as nat - '0' as nat
    else if 'a' <= c <= 'f' then c as nat - 'a' as nat + 10
    else 0
  }

  /** The lowest `width` hexadecimal digits of `n`, most significant first. */
  function Hex(n: nat, width: nat): (s: string)
    ensures |s| == width
    ensures forall i :: 0 <= i < |s| ==> IsHexDigit(s[i])
  {
    if width == 0 then [] else Hex(n / 16, width - 1) + [HexDigit(n % 16)]
  }

  /** The number a string of hexadecimal digits denotes: the inverse of Hex. */
  function HexValue(s: string): nat {
    if |s| == 0 then 0 else HexValue(s[..|s| - 1]) * 16 + DigitValue(s[|s| - 1])
  }

  lemma {:induction false} HexRoundTrip(n: nat, width: nat)
    requires n < Pow16(width)
    ensures HexValue(Hex(n, width)) == n
  {
    if width > 0 {
      var q, d := n / 16, n % 16;
      assert n == 16 * q + d;
      assert q < Pow16(width - 1);
      HexRoundTrip(q, width - 1);
      var s := Hex(n, width);
      assert s == Hex(q, width - 1) + [HexDigit(d)];
      assert s[..|s| - 1] == Hex(q, width - 1);
      assert DigitValue(HexDigit(d)) == d;
      assert HexValue(s) == HexValue(Hex(q, width - 1)) * 16 + d;
    }
  }

  /** `str(ObjectId)`: 24 lowercase hexadecimal digits. */
  function IdText(oid: ObjectId): (s: string)
    ensures |s| == ID_DIGITS
    ensures forall i :: 0 <= i < |s| ==> IsHexDigit(s[i])
    ensures HexValue(s) == oid
  {
    HexRoundTrip(oid, ID_DIGITS);
    Hex(oid, ID_DIGITS)
  }

  /** Distinct ObjectIds give distinct strings. */
  lemma IdTextInjective(a: ObjectId, b: ObjectId)
    requires IdText(a) == IdText(b)
    ensures a == b
  {
  }

  /** `str(doc['_id'])`. */
  function IdString(id: DocId): string {
    match id
    case Native(oid) => IdText(oid)
    case Textual(s) => s
  }

  /** The timestamp after line 165-166: a date/time becomes its ISO text plus "Z". */
  function TimestampText(t: Events.Timestamp): string {
    match t
    case Text(s) => s
    case Instant(iso) => iso + "Z"
  }

  /** One iteration of the loop: the document with `_id` and `timestamp` as strings. */
  function Wire(d: Doc): (w: Doc)
    ensures OnWire(w)
    ensures w.rec.author == d.rec.author && w.rec.action == d.rec.action
    ensures w.rec.fromBranch == d.rec.fromBranch && w.rec.toBranch == d.rec.toBranch
    ensures d.id.Native? ==> |w.id.text| == ID_DIGITS && HexValue(w.id.text) == d.id.oid
    ensures d.id.Native? ==> forall i :: 0 <= i < |w.id.text| ==> IsHexDigit(w.id.text[i])
    ensures d.id.Textual? ==> w.id == d.id
    ensures d.rec.timestamp.Instant? ==> w.rec.timestamp.text == d.rec.timestamp.iso + "Z"
    ensures d.rec.timestamp.Text? ==> w.rec.timestamp == d.rec.timestamp
  {
    Doc(Textual(IdString(d.id)), d.rec.(timestamp := Events.Text(TimestampText(d.rec.timestamp))))
  }

  /** The document is in wire form: string `_id` and string timestamp. */
  predicate OnWire(d: Doc) {
    d.id.Textual? && d.rec.timestamp.Text?
  }

  /** Every textual timestamp ends with "Z" (what the service itself writes). */
  predicate ZStamped(d: Doc) {
    d.rec.timestamp.Text? ==> |d.rec.timestamp.text| > 0 && d.rec.timestamp.text[|d.rec.timestamp.text| - 1] == 'Z'
  }

  predicate AllZStamped(s: seq<Doc>) {
    forall i :: 0 <= i < |s| ==> ZStamped(s[i])
  }

  /**
   * Rewriting a document twice is rewriting it once, and the rewritten
   * timestamp ends with "Z" whenever the stored one was a date/time or a
   * text ending with "Z".
   */
  lemma WireIdempotent(d: Doc)
    ensures Wire(Wire(d)) == Wire(d)
    ensures ZStamped(d) ==> ZStamped(Wire(d))
    ensures d.rec.timestamp.Instant? ==> ZStamped(Wire(d))
  {
  }

  /** The loop of line 162-166, rewriting each fetched document in place. */
  method WireAll(docs: array<Doc>)
    modifies docs
    ensures forall i :: 0 <= i < docs.Length ==> docs[i] == Wire(old(docs[i]))
    ensures forall i :: 0 <= i < docs.Length ==> OnWire(docs[i])
  {
    for i := 0 to docs.Length
      invariant forall k :: 0 <= k < i ==> docs[k] == Wire(old(docs[k])) && OnWire(docs[k])
      invariant forall k :: i <= k < docs.Length ==> docs[k] == old(docs[k])
    {
      docs[i] := Wire(docs[i]);
    }
  }
}
