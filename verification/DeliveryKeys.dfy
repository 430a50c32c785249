/** How a delivered request or response is named: the key it is claimed under on hyperbridge and
    the hexadecimal string it is stored under in the deliveries table. */
module DeliveryKeys {
  import opened Prelude
  import opened Ismp

  datatype TxReceipt =
    | RequestReceipt(query: Query, height: nat)
    | ResponseReceipt(query: Query, requestCommitment: H256, height: nat)

  datatype Key =
    | RequestKey(commitment: H256)
    | ResponseKey(requestCommitment: H256, responseCommitment: H256)

  datatype DeliveryType = PostRequestDelivery | PostResponseDelivery

  function KeyOf(r: TxReceipt): Key {
    match r
    case RequestReceipt(query, _) => RequestKey(query.commitment)
    case ResponseReceipt(query, request, _) => ResponseKey(request, query.commitment)
  }

  // ----- hexadecimal -----

  function HexDigit(d: nat): char
    requires d < 16
  {
    if d < 10 then ('0' as int + d) as char else ('a' as int + d - 10) as char
  }

  function Encode(bytes: Bytes): (s: string)
    ensures |s| == 2 * |bytes|
  {
    if bytes == [] then ""
    else [HexDigit(bytes[0] as int / 16), HexDigit(bytes[0] as int % 16)] + Encode(bytes[1..])
  }

  function Nibble(c: char): Option<int> {
    if '0' <= c <= '9' then Some(c as int - '0' as int)
    else if 'a' <= c <= 'f' then Some(c as int - 'a' as int + 10)
    else if 'A' <= c <= 'F' then Some(c as int - 'A' as int + 10)
    else None
  }

  lemma NibbleRange(c: char)
    ensures Nibble(c).Some? ==> 0 <= Nibble(c).value < 16
  {
  }

  /** The digits of both cases are read, and nothing else. */
  lemma NibbleIff(c: char, d: int)
    ensures Nibble(c) == Some(d) <==>
            || (0 <= d < 10 && c == "0123456789"[d])
            || (10 <= d < 16 && (c == "abcdef"[d - 10] || c == "ABCDEF"[d - 10]))
  {
  }

  lemma NibbleOfHex(d: nat)
    requires d < 16
    ensures Nibble(HexDigit(d)) == Some(d)
  {
  }

  function Decode(s: string): Option<Bytes> {
    if s == "" then Some([])
    else if |s| == 1 then None
    else
      NibbleRange(s[0]);
      NibbleRange(s[1]);
      match (Nibble(s[0]), Nibble(s[1]), Decode(s[2..]))
      case (Some(hi), Some(lo), Some(rest)) => Some([(16 * hi + lo) as byte] + rest)
      case _ => None
  }

  lemma {:induction false} DecodeEncode(bytes: Bytes)
    ensures Decode(Encode(bytes)) == Some(bytes)
  {
    if bytes == [] {
    } else {
      var s, b := Encode(bytes), bytes[0] as int;
      NibbleOfHex(b / 16);
      NibbleOfHex(b % 16);
      assert s[0] == HexDigit(b / 16) && s[1] == HexDigit(b % 16) && s[2..] == Encode(bytes[1..]);
      DecodeEncode(bytes[1..]);
      assert 16 * (b / 16) + b % 16 == b;
      assert [bytes[0]] + bytes[1..] == bytes;
    }
  }

  /** Two lower-case digits for each byte, the high half first. */
  lemma {:induction false} EncodeAt(bytes: Bytes, i: nat)
    requires i < |bytes|
    ensures Encode(bytes)[2 * i] == "0123456789abcdef"[bytes[i] as int / 16]
    ensures Encode(bytes)[2 * i + 1] == "0123456789abcdef"[bytes[i] as int % 16]
  {
    HexDigitIs(bytes[i] as int / 16);
    HexDigitIs(bytes[i] as int % 16);
    if i > 0 {
      EncodeAt(bytes[1..], i - 1);
      assert Encode(bytes)[2..] == Encode(bytes[1..]);
      assert Encode(bytes)[2 * i] == Encode(bytes[1..])[2 * (i - 1)];
      assert Encode(bytes)[2 * i + 1] == Encode(bytes[1..])[2 * (i - 1) + 1];
    }
  }

  lemma HexDigitIs(d: nat)
    requires d < 16
    ensures HexDigit(d) == "0123456789abcdef"[d]
  {
  }

  // ----- stored names -----

  /** The name `store_messages` gives a receipt. */
  function StoredHash(r: TxReceipt): string {
    match r
    case RequestReceipt(query, _) => Encode(query.commitment)
    case ResponseReceipt(query, request, _) => Encode(query.commitment + request)
  }

  function TypeOf(r: TxReceipt): DeliveryType {
    match r
    case RequestReceipt(_, _) => PostRequestDelivery
    case ResponseReceipt(_, _, _) => PostResponseDelivery
  }

  /** The name `delete_claimed_entries` looks a key up by. */
  function KeyHash(key: Key): string {
    match key
    case RequestKey(commitment) => Encode(commitment)
    case ResponseKey(request, response) => Encode(response + request)
  }

  /** What `create_claim_proof` makes of a stored row: undecodable rows are skipped, rows of the
      wrong length abort the task. */
  datatype ReadResult = Skipped | Panicked | Found(key: Key)

  function ReadKey(kind: DeliveryType, hash: string): ReadResult {
    match (kind, Decode(hash))
    case (_, None) => Skipped
    case (PostRequestDelivery, Some(bytes)) =>
      if |bytes| == 32 then Found(RequestKey(bytes)) else Panicked
    case (PostResponseDelivery, Some(bytes)) =>
      if |bytes| == 64 then Found(ResponseKey(bytes[32..], bytes[..32])) else Panicked
  }

  /** A receipt is stored under exactly the name its key is later deleted by, and the claim reader
      recovers that key from the row. */
  lemma StoredRoundTrip(r: TxReceipt)
    ensures StoredHash(r) == KeyHash(KeyOf(r))
    ensures ReadKey(TypeOf(r), StoredHash(r)) == Found(KeyOf(r))
  {
    match r
    case RequestReceipt(query, _) =>
      DecodeEncode(query.commitment);
    case ResponseReceipt(query, request, _) =>
      DecodeEncode(query.commitment + request);
  }

  /** What is in a name: the digits of the commitment, and for a response those of its request's after them. */
  lemma StoredName(r: TxReceipt, i: nat)
    requires i < if r.RequestReceipt? then 32 else 64
    ensures |StoredHash(r)| == if r.RequestReceipt? then 64 else 128
    ensures var b := if i < 32 then r.query.commitment[i] else r.requestCommitment[i - 32];
            && StoredHash(r)[2 * i] == "0123456789abcdef"[b as int / 16]
            && StoredHash(r)[2 * i + 1] == "0123456789abcdef"[b as int % 16]
    ensures KeyOf(r) == if r.RequestReceipt? then RequestKey(r.query.commitment)
                        else ResponseKey(r.requestCommitment, r.query.commitment)
  {
    EncodeAt(if r.RequestReceipt? then r.query.commitment else r.query.commitment + r.requestCommitment, i);
  }

  /** No two keys share a name, not even a request and a response. */
  lemma KeyHashInjective(a: Key, b: Key)
    requires KeyHash(a) == KeyHash(b)
    ensures a == b
  {
    match (a, b)
    case (RequestKey(x), RequestKey(y)) =>
      DecodeEncode(x);
      DecodeEncode(y);
    case (ResponseKey(q, p), ResponseKey(q', p')) =>
      DecodeEncode(p + q);
      DecodeEncode(p' + q');
      assert p == (p + q)[..32] && q == (p + q)[32..];
      assert p' == (p' + q')[..32] && q' == (p' + q')[32..];
    case _ =>
  }
}
