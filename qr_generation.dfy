/** The mock QR generation service (lib/mock-qr-generation.ts): one result
    per item, a summary over the results, the large test batch and the
    download-all walk. The random failure draws and the image encoder are
    parameters: `fails[i]` is the draw for the i-th item, and `encode`
    gives the data URL for a payload, or `None` when the encoder throws. */
module QrGeneration {
  import opened Wrappers
  import opened Strings
  import QrScanner

  datatype QrStatus = Succeeded | Errored

  datatype QRCodeResult = QRCodeResult(itemId: string, qrCodeUrl: string, status: QrStatus, error: Option<string>)

  datatype GenerateQRResponse = GenerateQRResponse(success: bool, message: string, data: seq<QRCodeResult>)

  /** What the generated code encodes: the package page of the item. */
  function Payload(origin: string, itemId: string): string {
    origin + QrScanner.Marker + itemId
  }

  /** The scanner reads back the item id from every generated payload,
      for an id it can capture and an origin that does not complete the
      marker itself. */
  lemma PayloadRoundTrip(origin: string, itemId: string)
    requires QrScanner.ClearOrigin(origin)
    requires itemId != [] && forall k :: 0 <= k < |itemId| ==> !QrScanner.IsStop(itemId[k])
    ensures QrScanner.PackageId(Payload(origin, itemId)) == Some(itemId)
    ensures QrScanner.NavigationTarget(Payload(origin, itemId)) == Some(itemId)
  {
    QrScanner.ExtractsEncodedId(origin, itemId);
    QrScanner.IncludesGuardRedundant(Payload(origin, itemId));
  }

  /** The result of one iteration of the loop. */
  function ResultFor(origin: string, itemId: string, fail: bool, encode: string -> Option<string>): (r: QRCodeResult)
    ensures r.itemId == itemId
    ensures r.status == Succeeded <==> !fail && encode(Payload(origin, itemId)).Some?
    ensures r.status == Succeeded ==> r.qrCodeUrl == encode(Payload(origin, itemId)).value && r.error.None?
    ensures r.status == Errored ==> r.qrCodeUrl == "" && Present(r.error)
    ensures fail ==> r.error == Some("Failed to generate QR code")
    ensures !fail && r.status == Errored ==> r.error == Some("QR generation failed")
  {
    if fail then QRCodeResult(itemId, "", Errored, Some("Failed to generate QR code"))
    else
      match encode(Payload(origin, itemId))
      case None => QRCodeResult(itemId, "", Errored, Some("QR generation failed"))
      case Some(url) => QRCodeResult(itemId, url, Succeeded, None)
  }

  /** The loop of `mockGenerateQRCodes`: one result per id, in order. */
  method GenerateResults(itemIds: seq<string>, fails: seq<bool>, origin: string, encode: string -> Option<string>)
    returns (results: seq<QRCodeResult>)
    requires |fails| == |itemIds|
    ensures |results| == |itemIds|
    ensures forall i :: 0 <= i < |itemIds| ==> results[i] == ResultFor(origin, itemIds[i], fails[i], encode)
  {
    results := [];
    var i := 0;
    while i < |itemIds|
      invariant 0 <= i <= |itemIds|
      invariant |results| == i
      invariant forall k :: 0 <= k < i ==> results[k] == ResultFor(origin, itemIds[k], fails[k], encode)
    {
      results := results + [ResultFor(origin, itemIds[i], fails[i], encode)];
      i := i + 1;
    }
  }

  function SuccessCount(results: seq<QRCodeResult>): (n: nat)
    ensures n <= |results|
  {
    if results == [] then 0
    else SuccessCount(results[..|results| - 1]) + (if results[|results| - 1].status == Succeeded then 1 else 0)
  }

  /** Every result succeeded exactly when the count is the length, and some
      result succeeded exactly when the count is positive. */
  lemma {:induction false} SuccessCountRule(results: seq<QRCodeResult>)
    ensures SuccessCount(results) == |results| <==> forall i :: 0 <= i < |results| ==> results[i].status == Succeeded
    ensures SuccessCount(results) > 0 <==> exists i :: 0 <= i < |results| && results[i].status == Succeeded
  {
    if results != [] {
      var init := results[..|results| - 1];
      SuccessCountRule(init);
      assert forall i :: 0 <= i < |init| ==> init[i] == results[i];
      if SuccessCount(init) > 0 {
        var i :| 0 <= i < |init| && init[i].status == Succeeded;
        assert results[i].status == Succeeded;
      }
    }
  }

  const AllGenerated: string := "All QR codes generated successfully"

  function PartialMessage(k: nat, n: nat): string {
    "Generated " + NatToString(k) + " of " + NatToString(n) + " QR codes"
  }

  /** The response built from the results. */
  function Summary(results: seq<QRCodeResult>): (resp: GenerateQRResponse)
    ensures resp.data == results
  {
    var k := SuccessCount(results);
    GenerateQRResponse(k > 0, if k == |results| then AllGenerated else PartialMessage(k, |results|), results)
  }

  lemma SummaryRule(results: seq<QRCodeResult>)
    ensures Summary(results).success <==> exists i :: 0 <= i < |results| && results[i].status == Succeeded
    ensures (forall i :: 0 <= i < |results| ==> results[i].status == Succeeded) ==> Summary(results).message == AllGenerated
    ensures (exists i :: 0 <= i < |results| && results[i].status == Errored) ==>
      Summary(results).message == PartialMessage(SuccessCount(results), |results|)
      && Summary(results).message != AllGenerated
    ensures Summary([]) == GenerateQRResponse(false, AllGenerated, [])
  {
    SuccessCountRule(results);
    var p := PartialMessage(SuccessCount(results), |results|);
    assert p[0] != AllGenerated[0];
  }

  /** `mockGenerateQRCodes` once the simulated delay has passed. */
  method MockGenerateQRCodes(itemIds: seq<string>, fails: seq<bool>, origin: string, encode: string -> Option<string>)
    returns (resp: GenerateQRResponse)
    requires |fails| == |itemIds|
    ensures resp == Summary(resp.data)
    ensures |resp.data| == |itemIds|
    ensures forall i :: 0 <= i < |itemIds| ==> resp.data[i] == ResultFor(origin, itemIds[i], fails[i], encode)
  {
    var results := GenerateResults(itemIds, fails, origin, encode);
    resp := Summary(results);
  }

  /** `mockGenerateSingleQR` */
  function SingleQR(origin: string, itemId: string, encode: string -> Option<string>): Option<string> {
    encode(Payload(origin, itemId))
  }

  /** `QR_TEST_SCENARIOS.largeBatch` */
  function LargeBatch(): seq<string> {
    seq(20, i requires 0 <= i < 20 => BatchId(i + 1))
  }

  /** "PKG-" and the number padded to three digits. */
  function BatchId(n: nat): string {
    "PKG-" + PadStart(NatToString(n), 3, '0')
  }

  /** The large batch is "PKG-001" to "PKG-020": twenty ids of seven
      characters whose last three digits read back as the position plus one. */
  lemma LargeBatchShape()
    ensures |LargeBatch()| == 20
    ensures forall i :: 0 <= i < 20 ==> |LargeBatch()[i]| == 7 && StartsWith(LargeBatch()[i], "PKG-")
    ensures forall i :: 0 <= i < 20 ==> ParseLeadingNat(LargeBatch()[i][4..]) == Some(i + 1)
    ensures forall i, j :: 0 <= i < j < 20 ==> LargeBatch()[i] != LargeBatch()[j]
  {
    var b := LargeBatch();
    forall i | 0 <= i < 20
      ensures |b[i]| == 7 && StartsWith(b[i], "PKG-")
      ensures ParseLeadingNat(b[i][4..]) == Some(i + 1)
    {
      assert b[i] == BatchId(i + 1);
      BatchIdShape(i + 1);
    }
    forall i, j | 0 <= i < j < 20
      ensures b[i] != b[j]
    {
      assert ParseLeadingNat(b[i][4..]) != ParseLeadingNat(b[j][4..]);
    }
  }

  /** An id below 100 is "PKG-" and three digits that read back as the number. */
  lemma BatchIdShape(n: nat)
    requires n < 100
    ensures |BatchId(n)| == 7 && StartsWith(BatchId(n), "PKG-")
    ensures ParseLeadingNat(BatchId(n)[4..]) == Some(n)
  {
    var d := NatToString(n);
    assert |d| <= 2 by {
      if n >= 10 {
        assert NatToString(n / 10) == [DigitChar(n / 10)];
      }
    }
    var p := PadStart(d, 3, '0');
    assert BatchId(n) == "PKG-" + p;
    assert BatchId(n)[4..] == p;
    PaddedParse(d, 3);
    ParseNatToString(n);
  }

  /** Zero padding does not change the value a digit string parses to. */
  lemma {:induction false} PaddedParse(d: string, width: nat)
    requires d != [] && forall k :: 0 <= k < |d| ==> IsDigit(d[k])
    ensures ParseLeadingNat(PadStart(d, width, '0')) == ParseLeadingNat(d)
    decreases width - |d|
  {
    if |d| < width {
      PaddedParse(['0'] + d, width);
      ZeroPrefix(d);
    }
  }

  lemma ZeroPrefix(d: string)
    requires d != [] && forall k :: 0 <= k < |d| ==> IsDigit(d[k])
    ensures ParseLeadingNat(['0'] + d) == ParseLeadingNat(d)
  {
    AllDigitsLead(d);
    AllDigitsLead(['0'] + d);
    ZeroValue(d);
  }

  lemma {:induction false} AllDigitsLead(d: string)
    requires forall k :: 0 <= k < |d| ==> IsDigit(d[k])
    ensures LeadingDigits(d) == d
  {
    if d != [] {
      AllDigitsLead(d[1..]);
    }
  }

  lemma {:induction false} ZeroValue(d: string)
    requires forall k :: 0 <= k < |d| ==> IsDigit(d[k])
    ensures DigitsValue(['0'] + d) == DigitsValue(d)
  {
    if d != [] {
      var z := ['0'] + d;
      assert z[..|z| - 1] == ['0'] + d[..|d| - 1];
      ZeroValue(d[..|d| - 1]);
    } else {
      assert (['0'] + d)[..0] == [];
    }
  }

  /** `qr-code-<id>.png` */
  function FileName(itemId: string): string {
    "qr-code-" + itemId + ".png"
  }

  /** One triggered download: the link's file name and target. */
  datatype Download = Download(fileName: string, href: string)

  predicate Downloadable(qr: QRCodeResult) {
    qr.status == Succeeded && qr.qrCodeUrl != ""
  }

  /** The downloads `mockDownloadAllQRCodes` triggers, in order. */
  function DownloadsOf(qrCodes: seq<QRCodeResult>): seq<Download> {
    if qrCodes == [] then []
    else
      var last := qrCodes[|qrCodes| - 1];
      DownloadsOf(qrCodes[..|qrCodes| - 1])
        + (if Downloadable(last) then [Download(FileName(last.itemId), last.qrCodeUrl)] else [])
  }

  /** The downloads keep the entries' order: those of a concatenation are
      those of the first part followed by those of the second. */
  lemma {:induction false} DownloadsOfAppend(a: seq<QRCodeResult>, b: seq<QRCodeResult>)
    ensures DownloadsOf(a + b) == DownloadsOf(a) + DownloadsOf(b)
    decreases |b|
  {
    if b == [] {
      assert a + b == a;
    } else {
      var init := b[..|b| - 1];
      DownloadsOfAppend(a, init);
      assert (a + b)[..|a + b| - 1] == a + init;
      assert (a + b)[|a + b| - 1] == b[|b| - 1];
    }
  }

  /** Every download comes from a downloadable entry. */
  lemma {:induction false} DownloadsOfRule(qrCodes: seq<QRCodeResult>)
    ensures |DownloadsOf(qrCodes)| <= |qrCodes|
    ensures forall d :: d in DownloadsOf(qrCodes) ==>
      exists i :: 0 <= i < |qrCodes| && Downloadable(qrCodes[i])
        && d == Download(FileName(qrCodes[i].itemId), qrCodes[i].qrCodeUrl)
    ensures (forall i :: 0 <= i < |qrCodes| ==> Downloadable(qrCodes[i])) ==> |DownloadsOf(qrCodes)| == |qrCodes|
    ensures (forall i :: 0 <= i < |qrCodes| ==> !Downloadable(qrCodes[i])) ==> DownloadsOf(qrCodes) == []
  {
    if qrCodes != [] {
      var init := qrCodes[..|qrCodes| - 1];
      DownloadsOfRule(init);
      assert forall i :: 0 <= i < |init| ==> init[i] == qrCodes[i];
    }
  }

  /** With an encoder that never yields an empty URL, a batch downloads
      exactly as many files as it generated. */
  lemma {:induction false} DownloadsMatchSuccesses(qrCodes: seq<QRCodeResult>)
    requires forall i :: 0 <= i < |qrCodes| && qrCodes[i].status == Succeeded ==> qrCodes[i].qrCodeUrl != ""
    ensures |DownloadsOf(qrCodes)| == SuccessCount(qrCodes)
  {
    if qrCodes != [] {
      var init := qrCodes[..|qrCodes| - 1];
      assert forall i :: 0 <= i < |init| ==> init[i] == qrCodes[i];
      DownloadsMatchSuccesses(init);
    }
  }

  /** The loop of `mockDownloadAllQRCodes`. */
  method DownloadAll(qrCodes: seq<QRCodeResult>) returns (downloads: seq<Download>)
    ensures downloads == DownloadsOf(qrCodes)
  {
    downloads := [];
    var i := 0;
    while i < |qrCodes|
      invariant 0 <= i <= |qrCodes|
      invariant downloads == DownloadsOf(qrCodes[..i])
    {
      assert qrCodes[..i + 1][..i] == qrCodes[..i];
      if Downloadable(qrCodes[i]) {
        downloads := downloads + [Download(FileName(qrCodes[i].itemId), qrCodes[i].qrCodeUrl)];
      }
      i := i + 1;
    }
    assert qrCodes[..i] == qrCodes;
  }
}
