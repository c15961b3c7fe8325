/**
 * The WT_APPLICATION_ERROR codes of draft-ietf-webtrans-http3-16, section 4.4: 32-bit
 * application codes laid out over the HTTP/3 codes, leaving every reserved code point out.
 */
module ErrorCodes {
  import opened Capsules

  const FIRST: int := 0x52E4A40FA8DB
  const LAST: int := 0x52E5AC983162

  datatype Result<T> = Ok(value: T) | ValueError

  /** Code points that HTTP/3 reserves (section 8.1 of RFC 9114). */
  predicate Reserved(h: int) { h >= 0x21 && (h - 0x21) % 0x1F == 0 }

  predicate IsWtApplicationErrorCode(h: int) { FIRST <= h <= LAST && (h - 0x21) % 0x1F != 0 }

  function WebtransportCodeToHttpCode(n: int): Result<int> {
    if n < 0 || n > MAX_ERROR_CODE then ValueError else Ok(FIRST + n + n / 0x1E)
  }

  function HttpCodeToWebtransportCode(h: int): Result<int> {
    if !IsWtApplicationErrorCode(h) then ValueError
    else
      var shifted := h - FIRST;
      Ok(shifted - shifted / 0x1F)
  }

  /** What is delivered for a stream that was reset; nothing outside the range. */
  function DeliverStreamResetErrorCode(wire: int, isConnectStream: bool): Option<int> {
    if isConnectStream then Some(wire)
    else
      match HttpCodeToWebtransportCode(wire)
      case Ok(n) => Some(n)
      case ValueError => None
  }

  /** Thirty codes, then a reserved one: where the layout puts a code and how to find it again. */
  lemma Layout(n: int)
    requires 0 <= n
    ensures var s := n + n / 30; s / 31 == n / 30 && s % 31 == n % 30 && s - s / 31 == n
  {
  }

  lemma LayoutBack(s: int)
    requires 0 <= s && s % 31 != 30
    ensures var n := s - s / 31; n / 30 == s / 31 && n + n / 30 == s
  {
  }

  lemma ReservedIsLast(h: int)
    ensures (h - 0x21) % 0x1F == 0 <==> (h - FIRST) % 31 == 30
  {
  }

  /** Every application code has a wire code, in the range and not reserved, and comes back. */
  lemma ToHttpAndBack(n: int)
    ensures WebtransportCodeToHttpCode(n).Ok? <==> 0 <= n <= MAX_ERROR_CODE
    ensures WebtransportCodeToHttpCode(n).Ok? ==>
              var h := WebtransportCodeToHttpCode(n).value;
              IsWtApplicationErrorCode(h) && !Reserved(h) && HttpCodeToWebtransportCode(h) == Ok(n)
  {
    if 0 <= n <= MAX_ERROR_CODE {
      Layout(n);
      ReservedIsLast(FIRST + n + n / 30);
    }
  }

  /** Every wire code in the range that is not reserved has an application code, and comes back. */
  lemma FromHttpAndBack(h: int)
    ensures HttpCodeToWebtransportCode(h).Ok? <==> FIRST <= h <= LAST && !Reserved(h)
    ensures HttpCodeToWebtransportCode(h).Ok? ==>
              var n := HttpCodeToWebtransportCode(h).value;
              0 <= n <= MAX_ERROR_CODE && WebtransportCodeToHttpCode(n) == Ok(h)
  {
    if IsWtApplicationErrorCode(h) {
      ReservedIsLast(h);
      LayoutBack(h - FIRST);
    }
  }

  /** The mapping keeps the order, and its ends are the ends of the range. */
  lemma KeepsOrder(m: int, n: int)
    requires 0 <= m <= MAX_ERROR_CODE && 0 <= n <= MAX_ERROR_CODE
    ensures m < n <==> WebtransportCodeToHttpCode(m).value < WebtransportCodeToHttpCode(n).value
    ensures WebtransportCodeToHttpCode(0) == Ok(FIRST)
    ensures WebtransportCodeToHttpCode(MAX_ERROR_CODE) == Ok(LAST)
  {
  }

  /** A data stream's reset delivers a 32-bit code or nothing; on a CONNECT stream the wire code stays. */
  lemma Delivery(wire: int, isConnectStream: bool)
    ensures isConnectStream ==> DeliverStreamResetErrorCode(wire, isConnectStream) == Some(wire)
    ensures !isConnectStream ==>
              (DeliverStreamResetErrorCode(wire, false).Some? <==> FIRST <= wire <= LAST && !Reserved(wire))
    ensures !isConnectStream && DeliverStreamResetErrorCode(wire, false).Some? ==>
              WebtransportCodeToHttpCode(DeliverStreamResetErrorCode(wire, false).value) == Ok(wire)
  {
    FromHttpAndBack(wire);
  }
}
