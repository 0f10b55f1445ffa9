/**
 * The payment-gateway return page (pages/receptionist/billing/PaymentResult.tsx): the
 * `yyyyMMddHHmmss` date reformatting and the classification of a gateway return.
 */
module PaymentResult {
  import opened Wrappers

  function Min(a: int, b: int): int { if a <= b then a else b }
  function Max(a: int, b: int): int { if a <= b then b else a }

  /** ECMAScript `s.substring(start, end)` for non-negative arguments: both clamp to the length, and they swap when out of order. */
  function Substring(s: string, start: nat, end: nat): (r: string)
    ensures |r| == Max(Min(start, |s|), Min(end, |s|)) - Min(Min(start, |s|), Min(end, |s|))
  {
    var a := Min(start, |s|);
    var b := Min(end, |s|);
    if a <= b then s[a..b] else s[b..a]
  }

  /** `formatDate`: `yyyyMMddHHmmss` to `dd/MM/yyyy HH:mm:ss`. */
  function FormatDate(s: string): string {
    if s == "" then ""
    else
      Substring(s, 6, 8) + "/" + Substring(s, 4, 6) + "/" + Substring(s, 0, 4) + " "
      + Substring(s, 8, 10) + ":" + Substring(s, 10, 12) + ":" + Substring(s, 12, 14)
  }

  /** The empty string formats to the empty string; any other input to its first 14 characters plus five separators. */
  lemma FormatDateLength(s: string)
    ensures s == "" ==> FormatDate(s) == ""
    ensures s != "" ==> |FormatDate(s)| == Min(|s|, 14) + 5
  {
  }

  /** On a full timestamp the day, month, year, hour, minute and second fields are moved into place; 19 characters. */
  lemma FormatDateFields(s: string)
    requires |s| >= 14
    ensures FormatDate(s) == s[6..8] + "/" + s[4..6] + "/" + s[0..4] + " " + s[8..10] + ":" + s[10..12] + ":" + s[12..14]
    ensures |FormatDate(s)| == 19
  {
  }

  /** Reads `dd/MM/yyyy HH:mm:ss` back into `yyyyMMddHHmmss`. */
  function ParseDisplayDate(d: string): Option<string> {
    if |d| == 19 && d[2] == '/' && d[5] == '/' && d[10] == ' ' && d[13] == ':' && d[16] == ':'
    then Some(d[6..10] + d[3..5] + d[0..2] + d[11..13] + d[14..16] + d[17..19])
    else None
  }

  /** Nothing of a 14-character timestamp is lost by formatting. */
  lemma FormatDateRoundTrip(s: string)
    requires |s| == 14
    ensures ParseDisplayDate(FormatDate(s)) == Some(s)
  {
    var d := FormatDate(s);
    FormatDateFields(s);
    assert d[6..10] == s[0..4] && d[3..5] == s[4..6] && d[0..2] == s[6..8];
    assert d[11..13] == s[8..10] && d[14..16] == s[10..12] && d[17..19] == s[12..14];
    assert s == s[0..4] + s[4..6] + s[6..8] + s[8..10] + s[10..12] + s[12..14];
  }

  // ---------------------------------------------------------------------------------
  // `handlePaymentResult`.

  datatype Status = Loading | Success | Error

  datatype ResultMessage = InvalidPaymentInfo | PaymentSucceeded | PaymentFailedOrCancelled | ProcessingFailed

  /** The message text shown for each outcome. */
  function MessageText(m: ResultMessage): string {
    match m
    case InvalidPaymentInfo => "Thông tin thanh toán không hợp lệ"
    case PaymentSucceeded => "Thanh toán thành công"
    case PaymentFailedOrCancelled => "Thanh toán thất bại hoặc bị hủy"
    case ProcessingFailed => "Lỗi khi xử lý kết quả thanh toán"
  }

  /** The final `status` and `message`, and whether the parameters were sent for processing. */
  datatype ResultView = ResultView(status: Status, message: ResultMessage, sentForProcessing: bool)

  /** The record `params` filled from the query string in order: a later duplicate key overwrites an earlier one. */
  function ParamsOf(query: seq<(string, string)>): map<string, string>
    decreases |query|
  {
    if query == [] then map[]
    else ParamsOf(query[..|query| - 1])[query[|query| - 1].0 := query[|query| - 1].1]
  }

  /** `params[key]`, `undefined` when absent. */
  function Lookup(params: map<string, string>, key: string): Option<string> {
    if key in params then Some(params[key]) else None
  }

  /** A key is present exactly when some pair has it, and then it holds the value of the last such pair. */
  lemma {:induction false} ParamsOfLastWins(query: seq<(string, string)>, key: string)
    ensures key in ParamsOf(query) <==> exists i :: 0 <= i < |query| && query[i].0 == key
    ensures forall j :: 0 <= j < |query| && query[j].0 == key && (forall i :: j < i < |query| ==> query[i].0 != key) ==>
                key in ParamsOf(query) && ParamsOf(query)[key] == query[j].1
    decreases |query|
  {
    if query != [] {
      var init := query[..|query| - 1];
      ParamsOfLastWins(init, key);
      if query[|query| - 1].0 != key {
        if exists i :: 0 <= i < |query| && query[i].0 == key {
          var i :| 0 <= i < |query| && query[i].0 == key;
          assert init[i].0 == key;
        }
        forall j | 0 <= j < |query| && query[j].0 == key && (forall i :: j < i < |query| ==> query[i].0 != key)
          ensures key in ParamsOf(query) && ParamsOf(query)[key] == query[j].1
        {
          assert init[j] == query[j];
          assert forall i :: j < i < |init| ==> init[i] == query[i];
        }
      }
    }
  }

  /**
   * `handlePaymentResult`: collect the query parameters, reject a return without
   * `vnp_SecureHash`, otherwise send it for processing (`processed` says whether that
   * succeeded) and judge success by `vnp_ResponseCode` alone.
   */
  method HandlePaymentResult(query: seq<(string, string)>, processed: bool) returns (view: ResultView)
    ensures view.sentForProcessing <==> Truthy(Lookup(ParamsOf(query), "vnp_SecureHash"))
    ensures !view.sentForProcessing ==> view == ResultView(Error, InvalidPaymentInfo, false)
    ensures view.sentForProcessing && !processed ==> view == ResultView(Error, ProcessingFailed, true)
    ensures view.status == Success <==>
      view.sentForProcessing && processed && Lookup(ParamsOf(query), "vnp_ResponseCode") == Some("00")
    ensures view.status == Success ==> view.message == PaymentSucceeded
    ensures view.sentForProcessing && processed && view.status == Error ==> view.message == PaymentFailedOrCancelled
  {
    var params: map<string, string> := map[];
    var i := 0;
    while i < |query|
      invariant 0 <= i <= |query|
      invariant params == ParamsOf(query[..i])
    {
      assert query[..i + 1][..i] == query[..i];
      params := params[query[i].0 := query[i].1];
      i := i + 1;
    }
    assert query[..|query|] == query;
    if !("vnp_SecureHash" in params && params["vnp_SecureHash"] != "") {
      return ResultView(Error, InvalidPaymentInfo, false);
    }
    if !processed {
      return ResultView(Error, ProcessingFailed, true);
    }
    if "vnp_ResponseCode" in params && params["vnp_ResponseCode"] == "00" {
      view := ResultView(Success, PaymentSucceeded, true);
    } else {
      view := ResultView(Error, PaymentFailedOrCancelled, true);
    }
  }
}
