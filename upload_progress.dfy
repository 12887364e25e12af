/** The `FileUploadProgress` class: which of three upload-progress backends is
    selected (APC's RFC 1867 cache, PHP's session upload progress, or the
    uploadprogress extension), the hidden form field that names the upload, and
    the normalisation of the backend's progress data into `{total, current, done}`.

    The ambient runtime state the class reads is passed in explicitly: the ini
    settings (`Ini`), the request headers (`Request`), the digest and address
    builtins (`Digests`), which backends the runtime provides (`Features`) and
    the three stores the backends keep their progress data in (`Stores`). */
module UploadProgress {
  import opened Wrappers
  import opened PhpValues

  const PROGRESS_APC: int := 0x01
  const PROGRESS_PHP: int := 0x02
  const PROGRESS_PHP_EXT: int := 0x03

  datatype Backend = Apc | Session | UploadProgressExt

  /** The ini settings the class reads with `ini_get`. */
  datatype Ini = Ini(
    apcRfc1867Name: string,             // apc.rfc1867_name
    apcRfc1867Prefix: string,           // apc.rfc1867_prefix
    sessionUploadProgressName: string,  // session.upload_progress.name
    sessionUploadProgressPrefix: string // session.upload_progress.prefix
  )

  /** The request data the class reads from `$_SERVER`. */
  datatype Request = Request(userAgent: string, remoteAddr: string)

  /** The builtins `sha1`, `md5` and `ip2long`; `ip2long` yields `None` where PHP returns false. */
  datatype Digests = Digests(
    sha1: string -> string,
    md5: string -> string,
    ip2long: string -> Option<int>
  )

  /** Whether each backend can be used: `apc_fetch` exists and `apc.rfc1867` is on;
      PHP is at least 5.4 and `session.upload_progress.enabled` is on;
      `uploadprogress_get_info` exists. */
  datatype Features = Features(apcUpload: bool, sessionUploadProgress: bool, uploadProgressExt: bool)

  /** The APC user cache, the session array and the uploadprogress extension's table. */
  datatype Stores = Stores(
    apcCache: map<string, PhpValue>,
    session: map<string, PhpValue>,
    uploadProgressInfo: map<string, PhpValue>
  )

  /** The array `getProgress` returns. `total` and `current` are handed through uncast. */
  datatype ProgressRecord = ProgressRecord(total: PhpValue, current: PhpValue, done: bool)

  datatype Error =
    | UnexpectedValue(value: PhpValue) // UnexpectedValueException from the setter
    | BackendUnavailable(backend: Backend) // RuntimeException: backend not loaded or not enabled
    | WrongFormat(backend: Backend)        // RuntimeException: data absent, not an array, or empty

  // ---------------------------------------------------------------------------
  // Backend selection

  /** The setter's check, made strict: the method must be one of the three integer constants. */
  predicate IsProgressMethod(calcMethod: PhpValue)
  {
    calcMethod == Int(PROGRESS_APC) || calcMethod == Int(PROGRESS_PHP) || calcMethod == Int(PROGRESS_PHP_EXT)
  }

  /** The backend the getters use for a stored method: they compare with `===`
      against the APC and session constants and fall through to the extension. */
  function BackendOf(calcMethod: PhpValue): (b: Backend)
    ensures b == Apc <==> calcMethod == Int(PROGRESS_APC)
    ensures b == Session <==> calcMethod == Int(PROGRESS_PHP)
  {
    if calcMethod == Int(PROGRESS_APC) then Apc
    else if calcMethod == Int(PROGRESS_PHP) then Session
    else UploadProgressExt
  }

  predicate Available(features: Features, b: Backend)
  {
    match b
    case Apc => features.apcUpload
    case Session => features.sessionUploadProgress
    case UploadProgressExt => features.uploadProgressExt
  }

  // ---------------------------------------------------------------------------
  // Field name, identifier and markup

  const EXT_FIELD_NAME: string := "UPLOAD_IDENTIFIER"

  function FieldName(b: Backend, ini: Ini): string
  {
    match b
    case Apc => ini.apcRfc1867Name
    case Session => ini.sessionUploadProgressName
    case UploadProgressExt => EXT_FIELD_NAME
  }

  /** How PHP prints `ip2long`'s result inside a string: false prints as nothing. */
  function IpText(ip: Option<int>): (text: string)
    ensures ip.None? <==> text == ""
    ensures ip.Some? ==> text == IntToString(ip.value)
  {
    match ip
    case None => ""
    case Some(n) => IntToString(n)
  }

  /** The identifier used by the session and extension backends. */
  function Md5Identifier(fileName: string, req: Request, d: Digests): string
  {
    d.md5(fileName) + d.md5(req.userAgent) + IpText(d.ip2long(req.remoteAddr))
  }

  function UniqueValue(b: Backend, fileName: string, req: Request, d: Digests): string
  {
    if b == Apc then d.sha1(fileName + req.userAgent + req.remoteAddr)
    else Md5Identifier(fileName, req, d)
  }

  const MARKUP_HEAD: string := "<input type='hidden' name='"
  const MARKUP_MIDDLE: string := "' value='"
  const MARKUP_TAIL: string := "'>"

  /** The hidden input element; name and value are spliced in unescaped. */
  function HiddenFieldMarkup(name: string, value: string): string
  {
    MARKUP_HEAD + name + MARKUP_MIDDLE + value + MARKUP_TAIL
  }

  // ---------------------------------------------------------------------------
  // Progress

  /** The key a backend's data is stored under: the ini prefix and the identifier
      for APC and sessions, the bare identifier for the extension. */
  function LookupKey(b: Backend, ini: Ini, id: string): (key: string)
    ensures b == Apc ==> key == ini.apcRfc1867Prefix + id
    ensures b == Session ==> key == ini.sessionUploadProgressPrefix + id
    ensures b == UploadProgressExt ==> key == id
  {
    match b
    case Apc => ini.apcRfc1867Prefix + id
    case Session => ini.sessionUploadProgressPrefix + id
    case UploadProgressExt => id
  }

  /** The store each backend reads: the APC cache, the session array, the extension's table. */
  function StoreOf(b: Backend, stores: Stores): map<string, PhpValue>
  {
    match b
    case Apc => stores.apcCache
    case Session => stores.session
    case UploadProgressExt => stores.uploadProgressInfo
  }

  /** `apc_fetch`, `$_SESSION[...]` or `uploadprogress_get_info`: the stored value, if any. */
  function Fetch(b: Backend, stores: Stores, key: string): (data: Option<PhpValue>)
    ensures data.None? <==> key !in StoreOf(b, stores)
    ensures data.Some? ==> data.value == StoreOf(b, stores)[key]
  {
    var store := StoreOf(b, stores);
    if key in store then Some(store[key]) else None
  }

  /** Rejects data that is absent, not an array or empty, and maps each
      backend's own keys onto `total`, `current` and `done`. */
  function Normalise(b: Backend, data: Option<PhpValue>): (r: Result<ProgressRecord, Error>)
    ensures r.Success? <==> IsNonEmptyArray(data)
    ensures r.Failure? ==> r.error == WrongFormat(b)
    ensures r.Success? && b == Apc ==>
      var m := data.value.entries;
      r.value == ProgressRecord(Index(m, "total"), Index(m, "current"), ToBool(Index(m, "done")))
    ensures r.Success? && b == Session ==>
      var m := data.value.entries;
      r.value == ProgressRecord(Index(m, "content_length"), Index(m, "bytes_processed"), ToBool(Index(m, "done")))
    ensures r.Success? && b == UploadProgressExt ==>
      var m := data.value.entries;
      r.value.total == Index(m, "bytes_total") && r.value.current == Index(m, "bytes_uploaded")
      && (r.value.done <==> ToInt(r.value.current) == ToInt(r.value.total))
  {
    if !IsNonEmptyArray(data) then Failure(WrongFormat(b))
    else
      var m := data.value.entries;
      match b
      case Apc =>
        Success(ProgressRecord(Index(m, "total"), Index(m, "current"), ToBool(Index(m, "done"))))
      case Session =>
        Success(ProgressRecord(Index(m, "content_length"), Index(m, "bytes_processed"), ToBool(Index(m, "done"))))
      case UploadProgressExt =>
        var uploaded := Index(m, "bytes_uploaded");
        var total := Index(m, "bytes_total");
        Success(ProgressRecord(total, uploaded, ToInt(uploaded) == ToInt(total)))
  }

  // ---------------------------------------------------------------------------
  // The class

  class FileUploadProgress {
    /** Set once by the constructor; a `const` field, so no method can change it. */
    const uploadFileName: string
    var progressCalcMethod: PhpValue

    /** The selected method is one of the three integer constants. The constructor sets it up
        and `SetProgressCalcMethod` keeps it; `SetProgressCalcMethodAsWritten` can break it,
        as the source's setter does. */
    ghost predicate Valid()
      reads this
    {
      IsProgressMethod(progressCalcMethod)
    }

    constructor (uploadFileName: string)
      ensures this.uploadFileName == uploadFileName
      ensures progressCalcMethod == Int(PROGRESS_APC)
      ensures Valid()
    {
      this.uploadFileName := uploadFileName;
      progressCalcMethod := Int(PROGRESS_APC);
    }

    function ProgressCalcMethod(): (calcMethod: PhpValue)
      reads this
      ensures calcMethod == progressCalcMethod
      ensures Valid() ==> IsProgressMethod(calcMethod)
    {
      progressCalcMethod
    }

    /** Accepts one of the three method constants; anything else is refused and
        leaves the selected method as it was. */
    method SetProgressCalcMethod(calcMethod: PhpValue) returns (outcome: Outcome<Error>)
      modifies this`progressCalcMethod
      ensures IsProgressMethod(calcMethod) ==> outcome == Pass && progressCalcMethod == calcMethod
      ensures !IsProgressMethod(calcMethod) ==>
        outcome == Fail(UnexpectedValue(calcMethod)) && progressCalcMethod == old(progressCalcMethod)
      ensures old(Valid()) ==> Valid()
    {
      if !IsProgressMethod(calcMethod) {
        return Fail(UnexpectedValue(calcMethod));
      }
      progressCalcMethod := calcMethod;
      outcome := Pass;
    }

    /** The setter as written: `in_array` without its strict flag accepts any value
        loosely equal to a constant and stores it as given, so it does not keep `Valid()`. */
    method SetProgressCalcMethodAsWritten(calcMethod: PhpValue) returns (outcome: Outcome<Error>)
      modifies this`progressCalcMethod
      ensures AcceptedAsWritten(calcMethod) ==> outcome == Pass && progressCalcMethod == calcMethod
      ensures !AcceptedAsWritten(calcMethod) ==>
        outcome == Fail(UnexpectedValue(calcMethod)) && progressCalcMethod == old(progressCalcMethod)
    {
      if !AcceptedAsWritten(calcMethod) {
        return Fail(UnexpectedValue(calcMethod));
      }
      progressCalcMethod := calcMethod;
      outcome := Pass;
    }

    function ProgressFieldName(ini: Ini): (name: string)
      reads this
      ensures progressCalcMethod == Int(PROGRESS_APC) ==> name == ini.apcRfc1867Name
      ensures progressCalcMethod == Int(PROGRESS_PHP) ==> name == ini.sessionUploadProgressName
      ensures progressCalcMethod != Int(PROGRESS_APC) && progressCalcMethod != Int(PROGRESS_PHP) ==>
        name == "UPLOAD_IDENTIFIER"
    {
      FieldName(BackendOf(progressCalcMethod), ini)
    }

    function ProgressFieldUniqueValue(req: Request, d: Digests): (id: string)
      reads this
      ensures progressCalcMethod == Int(PROGRESS_APC) ==>
        id == d.sha1(uploadFileName + req.userAgent + req.remoteAddr)
      ensures progressCalcMethod != Int(PROGRESS_APC) ==>
        id == d.md5(uploadFileName) + d.md5(req.userAgent) + IpText(d.ip2long(req.remoteAddr))
    {
      UniqueValue(BackendOf(progressCalcMethod), uploadFileName, req, d)
    }

    function HiddenUploadFieldHTML(ini: Ini, req: Request, d: Digests): (html: string)
      reads this
      ensures html == "<input type='hidden' name='" + ProgressFieldName(ini)
                      + "' value='" + ProgressFieldUniqueValue(req, d) + "'>"
    {
      HiddenFieldMarkup(ProgressFieldName(ini), ProgressFieldUniqueValue(req, d))
    }

    /** Fails before any lookup when the selected backend is unavailable;
        otherwise normalises what the backend holds under the lookup key. */
    function Progress(features: Features, ini: Ini, req: Request, d: Digests, stores: Stores)
      : (r: Result<ProgressRecord, Error>)
      reads this
      ensures var b := BackendOf(progressCalcMethod);
        !Available(features, b) ==> r == Failure(BackendUnavailable(b))
      ensures var b := BackendOf(progressCalcMethod);
        var key := LookupKey(b, ini, ProgressFieldUniqueValue(req, d));
        Available(features, b) ==> r == Normalise(b, Fetch(b, stores, key))
    {
      var b := BackendOf(progressCalcMethod);
      if !Available(features, b) then Failure(BackendUnavailable(b))
      else Normalise(b, Fetch(b, stores, LookupKey(b, ini, ProgressFieldUniqueValue(req, d))))
    }
  }

  // ---------------------------------------------------------------------------
  // Lemmas

  /** For a fixed backend and ini settings, the lookup key determines the identifier,
      so distinct identifiers are looked up under distinct keys. */
  lemma KeyDeterminesId(b: Backend, ini: Ini, id1: string, id2: string)
    requires LookupKey(b, ini, id1) == LookupKey(b, ini, id2)
    ensures id1 == id2
  {
    var prefix := LookupKey(b, ini, "");
    assert LookupKey(b, ini, id1) == prefix + id1 && LookupKey(b, ini, id2) == prefix + id2;
    assert id1 == (prefix + id1)[|prefix|..];
    assert id2 == (prefix + id2)[|prefix|..];
  }

  /** The session/extension identifier splits back into its three parts when
      `md5` yields fixed-length digests: equal identifiers mean equal digests of
      the file names, equal digests of the user agents, and equal `ip2long` results. */
  lemma {:induction false} Md5IdentifierDetermines(f1: string, r1: Request, f2: string, r2: Request, d: Digests)
    requires forall s :: |d.md5(s)| == 32
    requires Md5Identifier(f1, r1, d) == Md5Identifier(f2, r2, d)
    ensures d.md5(f1) == d.md5(f2)
    ensures d.md5(r1.userAgent) == d.md5(r2.userAgent)
    ensures d.ip2long(r1.remoteAddr) == d.ip2long(r2.remoteAddr)
  {
    var id1, id2 := Md5Identifier(f1, r1, d), Md5Identifier(f2, r2, d);
    assert |d.md5(f1)| == 32 && |d.md5(f2)| == 32;
    assert |d.md5(r1.userAgent)| == 32 && |d.md5(r2.userAgent)| == 32;
    assert id1[..32] == d.md5(f1);
    assert id2[..32] == d.md5(f2);
    assert id1[32..64] == d.md5(r1.userAgent);
    assert id2[32..64] == d.md5(r2.userAgent);
    var ip1, ip2 := d.ip2long(r1.remoteAddr), d.ip2long(r2.remoteAddr);
    assert id1[64..] == IpText(ip1);
    assert id2[64..] == IpText(ip2);
    IpTextInjective(ip1, ip2);
  }

  /** `ip2long`'s result can be read back from its printed form. */
  lemma IpTextInjective(a: Option<int>, b: Option<int>)
    requires IpText(a) == IpText(b)
    ensures a == b
  {
    if a.Some? && b.Some? {
      IntToStringInjective(a.value, b.value);
    }
  }

  /** The APC identifier hashes the three strings run together, so moving
      characters between the file name and the user agent gives the same key. */
  lemma ApcIdentifierRunsInputsTogether(addr: string, d: Digests)
    ensures UniqueValue(Apc, "ab", Request("c", addr), d) == UniqueValue(Apc, "a", Request("bc", addr), d)
  {
    assert "ab" + "c" + addr == "a" + "bc" + addr;
  }

  /** A field name without a single quote can be read back from the markup:
      equal markup means equal name and equal value. */
  lemma HiddenFieldMarkupDetermines(n1: string, v1: string, n2: string, v2: string)
    requires '\'' !in n1 && '\'' !in n2
    requires HiddenFieldMarkup(n1, v1) == HiddenFieldMarkup(n2, v2)
    ensures n1 == n2 && v1 == v2
  {
    var r1, r2 := MARKUP_MIDDLE + v1 + MARKUP_TAIL, MARKUP_MIDDLE + v2 + MARKUP_TAIL;
    var t1, t2 := n1 + r1, n2 + r2;
    assert HiddenFieldMarkup(n1, v1) == MARKUP_HEAD + t1;
    assert HiddenFieldMarkup(n2, v2) == MARKUP_HEAD + t2;
    assert t1 == (MARKUP_HEAD + t1)[|MARKUP_HEAD|..];
    assert t2 == (MARKUP_HEAD + t2)[|MARKUP_HEAD|..];
    NameEndsAtFirstQuote(n1, r1, n2, r2);
    assert v1 == r1[|MARKUP_MIDDLE|..|r1| - |MARKUP_TAIL|];
    assert v2 == r2[|MARKUP_MIDDLE|..|r2| - |MARKUP_TAIL|];
  }

  /** A quote-free name followed by text that starts with a quote is recovered
      by cutting at the first quote. */
  lemma NameEndsAtFirstQuote(n1: string, r1: string, n2: string, r2: string)
    requires '\'' !in n1 && '\'' !in n2
    requires |r1| > 0 && r1[0] == '\'' && |r2| > 0 && r2[0] == '\''
    requires n1 + r1 == n2 + r2
    ensures n1 == n2 && r1 == r2
  {
    FirstQuoteEndsName(n1, r1);
    FirstQuoteEndsName(n2, r2);
    assert |n1| == |n2|;
    assert n1 == (n1 + r1)[..|n1|] && n2 == (n2 + r2)[..|n2|];
    assert r1 == (n1 + r1)[|n1|..] && r2 == (n2 + r2)[|n2|..];
  }

  /** In a quote-free name followed by a quote, the first quote ends the name. */
  lemma FirstQuoteEndsName(name: string, rest: string)
    requires '\'' !in name && |rest| > 0 && rest[0] == '\''
    ensures (name + rest)[|name|] == '\''
    ensures forall k :: 0 <= k < |name| ==> (name + rest)[k] != '\''
  {
  }

  /** Without escaping, a quote in the field name makes the markup ambiguous. */
  lemma QuotedFieldNameIsAmbiguous()
    ensures HiddenFieldMarkup("a' value='b", "c") == HiddenFieldMarkup("a", "b' value='c")
  {
  }

  /** Whether `getProgress` succeeds depends on nothing but availability and the
      shape of the one entry stored under the lookup key. */
  lemma ProgressSucceedsIff(p: FileUploadProgress, features: Features, ini: Ini, req: Request, d: Digests, stores: Stores)
    ensures var b := BackendOf(p.progressCalcMethod);
      var key := LookupKey(b, ini, p.ProgressFieldUniqueValue(req, d));
      p.Progress(features, ini, req, d, stores).Success?
      <==> Available(features, b) && IsNonEmptyArray(Fetch(b, stores, key))
  {
  }

  // ---------------------------------------------------------------------------
  // Finding: the setter's membership test is loose

  /** The setter's check as written: `in_array` without its strict flag compares with `==`. */
  predicate AcceptedAsWritten(calcMethod: PhpValue)
    ensures calcMethod.Bool? ==> (AcceptedAsWritten(calcMethod) <==> calcMethod.b)
    ensures calcMethod.Null? || calcMethod.Arr? ==> !AcceptedAsWritten(calcMethod)
    ensures calcMethod.Int? ==> (AcceptedAsWritten(calcMethod) <==> 1 <= calcMethod.i <= 3)
  {
    LooseEqualsInt(calcMethod, PROGRESS_APC) || LooseEqualsInt(calcMethod, PROGRESS_PHP)
    || LooseEqualsInt(calcMethod, PROGRESS_PHP_EXT)
  }

  /** The string "1" and `true` pass the check as written, and both equal the APC
      constant under `==`; but the getters compare with `===`, so they select the
      extension backend. */
  lemma LooseCheckMisroutesApc()
    ensures AcceptedAsWritten(Str("1")) && LooseEqualsInt(Str("1"), PROGRESS_APC)
    ensures BackendOf(Str("1")) == UploadProgressExt
    ensures AcceptedAsWritten(Bool(true)) && LooseEqualsInt(Bool(true), PROGRESS_APC)
    ensures BackendOf(Bool(true)) == UploadProgressExt
  {
  }

  /** A client of the class: on a fresh tracker, setting one of the three constants
      and then reading the method back gives that constant. */
  method SetThenGet(fileName: string, m: int) returns (outcome: Outcome<Error>, got: PhpValue)
    requires PROGRESS_APC <= m <= PROGRESS_PHP_EXT
    ensures outcome == Pass && got == Int(m)
  {
    var p := new FileUploadProgress(fileName);
    outcome := p.SetProgressCalcMethod(Int(m));
    got := p.ProgressCalcMethod();
  }

  /** The setter as written accepts the string "1" and stores it, which leaves the
      tracker outside `Valid()`. */
  method AsWrittenSetterBreaksValid(fileName: string) returns (outcome: Outcome<Error>, p: FileUploadProgress)
    ensures outcome == Pass && p.progressCalcMethod == Str("1") && !p.Valid()
  {
    p := new FileUploadProgress(fileName);
    outcome := p.SetProgressCalcMethodAsWritten(Str("1"));
  }

  /** A client of the setter as written: a fresh tracker given the string "1" accepts
      it, and then names its hidden field for the extension rather than for APC. */
  method AsWrittenSetterMisroutes(fileName: string, ini: Ini)
    returns (outcome: Outcome<Error>, fieldName: string)
    ensures outcome == Pass && fieldName == "UPLOAD_IDENTIFIER"
  {
    var p := new FileUploadProgress(fileName);
    outcome := p.SetProgressCalcMethodAsWritten(Str("1"));
    fieldName := p.ProgressFieldName(ini);
  }

  /** The strict check accepts exactly the integers the check as written accepts,
      and every value it accepts selects the backend whose constant it equals. */
  lemma StrictCheckSelectsIntendedBackend(calcMethod: PhpValue)
    ensures IsProgressMethod(calcMethod) <==> calcMethod.Int? && AcceptedAsWritten(calcMethod)
    ensures IsProgressMethod(calcMethod) && LooseEqualsInt(calcMethod, PROGRESS_APC) ==> BackendOf(calcMethod) == Apc
    ensures IsProgressMethod(calcMethod) && LooseEqualsInt(calcMethod, PROGRESS_PHP) ==> BackendOf(calcMethod) == Session
    ensures IsProgressMethod(calcMethod) && LooseEqualsInt(calcMethod, PROGRESS_PHP_EXT) ==>
      BackendOf(calcMethod) == UploadProgressExt
  {
  }

  // ---------------------------------------------------------------------------
  // Scenarios

  lemma ApcProgressPassesThrough()
    ensures Normalise(Apc, Some(Arr(map["total" := Int(100), "current" := Int(40), "done" := Bool(false)])))
            == Success(ProgressRecord(Int(100), Int(40), false))
  {
  }

  lemma ExtensionDoneWhenAllBytesUploaded()
    ensures Normalise(UploadProgressExt, Some(Arr(map["bytes_total" := Int(50), "bytes_uploaded" := Int(50)])))
            == Success(ProgressRecord(Int(50), Int(50), true))
  {
  }

  lemma MissingEntryIsWrongFormat(b: Backend, stores: Stores, key: string)
    ensures Fetch(b, stores, key) == None ==> Normalise(b, Fetch(b, stores, key)) == Failure(WrongFormat(b))
  {
  }
}
