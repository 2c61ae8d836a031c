/** The QR scanner component (components/qr-scanner.tsx): five state cells,
    the handlers that set them, and the extraction of a package id from a
    scanned payload with the pattern `/package/([^/?#]+)`. */
module QrScanner {
  import opened Wrappers
  import opened Strings
  import opened Navigation

  const Marker: string := "/package/"

  /** The characters the capture group `[^/?#]` excludes. */
  predicate IsStop(c: char) {
    c == '/' || c == '?' || c == '#'
  }

  predicate OccursAt(s: string, sub: string, i: nat) {
    i + |sub| <= |s| && s[i..i + |sub|] == sub
  }

  /** `s.includes(sub)` */
  predicate Includes(s: string, sub: string) {
    exists i: nat :: i <= |s| && OccursAt(s, sub, i)
  }

  /** The pattern matches at `i`: the marker, then at least one character
      the capture group accepts. */
  predicate MatchAt(s: string, i: nat) {
    OccursAt(s, Marker, i) && i + |Marker| < |s| && !IsStop(s[i + |Marker|])
  }

  /** The leftmost position at or after `from` where the pattern matches. */
  function FindMatch(s: string, from: nat): (r: Option<nat>)
    ensures r.Some? ==> from <= r.value && MatchAt(s, r.value)
    ensures r.Some? ==> forall j: nat :: from <= j < r.value ==> !MatchAt(s, j)
    ensures r.None? ==> forall j: nat :: from <= j ==> !MatchAt(s, j)
    decreases |s| - from
  {
    if from >= |s| then None
    else if MatchAt(s, from) then Some(from)
    else FindMatch(s, from + 1)
  }

  /** The greedy run `[^/?#]+` starting at `j`. */
  function Run(s: string, j: nat): (r: string)
    requires j <= |s|
    ensures j + |r| <= |s| && r == s[j..j + |r|]
    ensures forall k :: 0 <= k < |r| ==> !IsStop(r[k])
    ensures j + |r| < |s| ==> IsStop(s[j + |r|])
    decreases |s| - j
  {
    if j < |s| && !IsStop(s[j]) then [s[j]] + Run(s, j + 1) else []
  }

  /** `data.match(/\/package\/([^/?#]+)/)[1]`, when it matches. */
  function PackageId(data: string): (id: Option<string>)
    ensures id.Some? ==> id.value != [] && forall k :: 0 <= k < |id.value| ==> !IsStop(id.value[k])
    ensures id.None? <==> forall j: nat :: !MatchAt(data, j)
  {
    match FindMatch(data, 0)
    case None => None
    case Some(i) => Some(Run(data, i + |Marker|))
  }

  /** An extracted id sits right after the leftmost match of the marker and
      runs up to the end of the payload or to a stop character. */
  lemma PackageIdIsLeftmostRun(data: string)
    requires PackageId(data).Some?
    ensures FindMatch(data, 0).Some?
    ensures var i := FindMatch(data, 0).value;
      var id := PackageId(data).value;
      && MatchAt(data, i)
      && (forall j: nat :: j < i ==> !MatchAt(data, j))
      && OccursAt(data, Marker + id, i)
      && (i + |Marker| + |id| < |data| ==> IsStop(data[i + |Marker| + |id|]))
  {
    var i := FindMatch(data, 0).value;
    assert PackageId(data) == Some(Run(data, i + |Marker|));
    RunFollowsMarker(data, i);
  }

  /** At a match, the marker and the run after it are one occurrence. */
  lemma RunFollowsMarker(data: string, i: nat)
    requires MatchAt(data, i)
    ensures OccursAt(data, Marker + Run(data, i + |Marker|), i)
  {
    var m := |Marker|;
    var id := Run(data, i + m);
    assert data[i..i + m] == Marker;
    assert data[i + m..i + m + |id|] == id;
    assert data[i..i + m + |id|] == data[i..i + m] + data[i + m..i + m + |id|];
  }

  /** The `includes` test before the match never changes the outcome. */
  function NavigationTarget(data: string): Option<string> {
    if Includes(data, Marker) then PackageId(data) else None
  }

  lemma IncludesGuardRedundant(data: string)
    ensures NavigationTarget(data) == PackageId(data)
  {
    if PackageId(data).Some? {
      var i := FindMatch(data, 0).value;
      assert OccursAt(data, Marker, i);
    }
  }

  /** The origin is clear when no marker in `origin + Marker` starts inside
      the origin itself. */
  predicate ClearOrigin(origin: string) {
    forall j: nat :: j < |origin| ==> !OccursAt(origin + Marker, Marker, j)
  }

  /** Round trip with the payload the QR generator encodes: from
      `origin + "/package/" + id` the scanner extracts exactly `id`. */
  lemma {:induction false} ExtractsEncodedId(origin: string, id: string)
    requires ClearOrigin(origin)
    requires id != [] && forall k :: 0 <= k < |id| ==> !IsStop(id[k])
    ensures PackageId(origin + Marker + id) == Some(id)
  {
    var s := origin + Marker + id;
    var m := |origin|;
    assert s[m..m + |Marker|] == Marker;
    assert s[m + |Marker|] == id[0];
    assert MatchAt(s, m);
    NoMatchInsideOrigin(origin, id);
    assert FindMatch(s, 0) == Some(m);
    assert s[m + |Marker|..] == id;
    RunToEnd(s, m + |Marker|);
  }

  /** With a clear origin no match starts inside it. */
  lemma NoMatchInsideOrigin(origin: string, id: string)
    requires ClearOrigin(origin)
    ensures forall j: nat :: j < |origin| ==> !MatchAt(origin + Marker + id, j)
  {
    var s := origin + Marker + id;
    assert s == (origin + Marker) + id;
    forall j: nat | j < |origin|
      ensures !MatchAt(s, j)
    {
      assert s[j..j + |Marker|] == (origin + Marker)[j..j + |Marker|];
      assert !OccursAt(origin + Marker, Marker, j);
    }
  }

  /** Over a tail free of stop characters the run is the whole tail. */
  lemma {:induction false} RunToEnd(s: string, j: nat)
    requires j <= |s|
    requires forall k :: j <= k < |s| ==> !IsStop(s[k])
    ensures Run(s, j) == s[j..]
    decreases |s| - j
  {
    if j < |s| {
      RunToEnd(s, j + 1);
    }
  }

  /** The hypothesis cannot simply be "the origin does not contain the
      marker": with origin `http://package` the marker is completed by the
      generator's own slash and the scanner reads the id `package`. */
  lemma OriginCanCompleteMarker()
    ensures !Includes("http://package", Marker)
    ensures PackageId("http://package" + Marker + "PKG-001") == Some("package")
  {
    OriginLacksMarker();
    var s := "http://package" + Marker + "PKG-001";
    assert s == "http://package/package/PKG-001";
    CompletedMarkerMatches(s);
  }

  lemma OriginLacksMarker()
    ensures !Includes("http://package", Marker)
  {
    var o := "http://package";
    forall i: nat | i <= |o|
      ensures !OccursAt(o, Marker, i)
    {
      if OccursAt(o, Marker, i) {
        MarkerStarts(o, i);
      }
    }
  }

  lemma CompletedMarkerMatches(s: string)
    requires s == "http://package/package/PKG-001"
    ensures PackageId(s) == Some("package")
  {
    MarkerAtSix(s);
    NoMatchBeforeSix(s);
    assert FindMatch(s, 0) == Some(6);
    RunAfterMarker(s);
  }

  lemma MarkerAtSix(s: string)
    requires s == "http://package/package/PKG-001"
    ensures MatchAt(s, 6)
  {
    assert s[6..15] == [s[6], s[7], s[8], s[9], s[10], s[11], s[12], s[13], s[14]];
    assert s[6] == '/' && s[7] == 'p' && s[8] == 'a' && s[9] == 'c' && s[10] == 'k';
    assert s[11] == 'a' && s[12] == 'g' && s[13] == 'e' && s[14] == '/';
    assert Marker == ['/', 'p', 'a', 'c', 'k', 'a', 'g', 'e', '/'];
    assert OccursAt(s, Marker, 6);
    assert s[15] == 'p';
  }

  lemma NoMatchBeforeSix(s: string)
    requires s == "http://package/package/PKG-001"
    ensures forall j: nat :: j < 6 ==> !MatchAt(s, j)
  {
    forall j: nat | j < 6
      ensures !MatchAt(s, j)
    {
      if MatchAt(s, j) {
        MarkerStarts(s, j);
      }
    }
  }

  lemma RunAfterMarker(s: string)
    requires s == "http://package/package/PKG-001"
    ensures Run(s, 15) == "package"
  {
    forall k | 15 <= k < 22
      ensures !IsStop(s[k])
    {
      assert s[k] in "package";
    }
    RunUpTo(s, 15, 22);
    assert s[15..22] == [s[15], s[16], s[17], s[18], s[19], s[20], s[21]];
  }

  /** A run stops at the first stop character. */
  lemma {:induction false} RunUpTo(s: string, j: nat, e: nat)
    requires j <= e < |s| && IsStop(s[e])
    requires forall k :: j <= k < e ==> !IsStop(s[k])
    ensures Run(s, j) == s[j..e]
    decreases e - j
  {
    if j < e {
      RunUpTo(s, j + 1, e);
    }
  }

  /** A marker occurrence starts with a slash, then a `p`, and its last
      character is a slash. */
  lemma MarkerStarts(s: string, i: nat)
    requires OccursAt(s, Marker, i)
    ensures s[i] == '/' && s[i + 1] == 'p' && s[i + 8] == '/'
  {
    assert s[i..i + |Marker|][0] == '/';
    assert s[i..i + |Marker|][1] == 'p';
    assert s[i..i + |Marker|][8] == '/';
  }

  /** The two delayed effects of a scan success. */
  datatype Timer = NavigateLater(path: string) | ClearDetectedLater

  function DelayMs(t: Timer): nat {
    match t
    case NavigateLater(_) => 500
    case ClearDetectedLater => 1000
  }

  /** What a scan error handler receives: an `Error` with its message, or
      any other thrown value. */
  datatype Thrown = ErrorObject(message: string) | OtherValue

  function ScanErrorMessage(e: Thrown): (msg: string)
    ensures e.ErrorObject? ==> msg == e.message
    ensures e.OtherValue? ==> msg == "Failed to scan QR code"
  {
    match e
    case ErrorObject(m) => m
    case OtherValue => "Failed to scan QR code"
  }

  /** A selected file's MIME type. */
  datatype SelectedFile = SelectedFile(mimeType: string)

  predicate IsImage(f: SelectedFile) {
    StartsWith(f.mimeType, "image/")
  }

  class Scanner {
    var result: string
    var error: string
    var scanning: bool
    var detected: bool
    var isProcessing: bool
    const router: Router

    constructor (router: Router)
      ensures result == "" && error == "" && !scanning && !detected && !isProcessing
      ensures this.router == router
    {
      result := "";
      error := "";
      scanning := false;
      detected := false;
      isProcessing := false;
      this.router := router;
    }

    predicate Initial()
      reads this
    {
      result == "" && error == "" && !scanning && !detected && !isProcessing
    }

    /** `handleReset` */
    method Reset()
      modifies this
      ensures Initial()
    {
      result := "";
      error := "";
      scanning := false;
      detected := false;
      isProcessing := false;
    }

    /** `handleStartScanning` */
    method StartScanning()
      modifies this
      ensures result == "" && error == "" && scanning
      ensures detected == old(detected) && isProcessing == old(isProcessing)
    {
      error := "";
      result := "";
      scanning := true;
    }

    /** `handleScanSuccess`: records the payload and schedules either the
        navigation to the package page or the clearing of `detected`. */
    method ScanSuccess(data: string) returns (timer: Timer)
      modifies this
      ensures result == data && detected && error == "" && !scanning
      ensures isProcessing == old(isProcessing)
      ensures PackageId(data).Some? ==> timer == NavigateLater("/package/" + PackageId(data).value)
      ensures PackageId(data).None? ==> timer == ClearDetectedLater
    {
      result := data;
      detected := true;
      error := "";
      scanning := false;
      IncludesGuardRedundant(data);
      var target := NavigationTarget(data);
      if target.Some? {
        timer := NavigateLater("/package/" + target.value);
      } else {
        timer := ClearDetectedLater;
      }
    }

    /** A scheduled effect, once its delay has passed. */
    method Fire(timer: Timer)
      modifies this, router
      ensures timer.NavigateLater? ==> router.pushed == old(router.pushed) + [timer.path]
      ensures timer.NavigateLater? ==> detected == old(detected)
      ensures timer.ClearDetectedLater? ==> router.pushed == old(router.pushed) && !detected
      ensures result == old(result) && error == old(error) && scanning == old(scanning)
      ensures isProcessing == old(isProcessing)
    {
      match timer
      case NavigateLater(path) => router.Push(path);
      case ClearDetectedLater => detected := false;
    }

    /** `handleScanError` */
    method ScanError(e: Thrown)
      modifies this
      ensures error == ScanErrorMessage(e)
      ensures result == old(result) && scanning == old(scanning)
      ensures detected == old(detected) && isProcessing == old(isProcessing)
    {
      error := ScanErrorMessage(e);
    }

    /** The gate at the start of `handleFileUpload`: no file, or a file that
        is not an image, stops before `isProcessing` is set. */
    method BeginFileUpload(file: Option<SelectedFile>) returns (accepted: bool)
      modifies this
      ensures accepted <==> file.Some? && IsImage(file.value)
      ensures accepted ==> isProcessing
      ensures !accepted ==> isProcessing == old(isProcessing)
      ensures result == old(result) && error == old(error)
      ensures scanning == old(scanning) && detected == old(detected)
    {
      if file.None? {
        return false;
      }
      if !IsImage(file.value) {
        return false;
      }
      isProcessing := true;
      return true;
    }

    /** The image's `onload` after decoding: a payload (`code.data`) goes
        through the success handler; either way processing ends. */
    method FinishDecode(decoded: Option<string>) returns (timer: Option<Timer>)
      modifies this
      ensures !isProcessing
      ensures Present(decoded) ==> result == decoded.value && detected && error == "" && !scanning
      ensures Present(decoded) && PackageId(decoded.value).Some? ==>
        timer == Some(NavigateLater("/package/" + PackageId(decoded.value).value))
      ensures Present(decoded) && PackageId(decoded.value).None? ==> timer == Some(ClearDetectedLater)
      ensures !Present(decoded) ==> timer.None? && result == old(result) && error == old(error)
      ensures !Present(decoded) ==> scanning == old(scanning) && detected == old(detected)
    {
      timer := None;
      if Present(decoded) {
        var t := ScanSuccess(decoded.value);
        timer := Some(t);
      }
      isProcessing := false;
    }

    /** The image failed to load, had no drawing context, or threw. */
    method FailDecode()
      modifies this
      ensures !isProcessing
      ensures result == old(result) && error == old(error)
      ensures scanning == old(scanning) && detected == old(detected)
    {
      isProcessing := false;
    }
  }
}
