/**
 * `MultiModalService`: the client of the pet-image analysis API. It maps
 * breed names to the API's breed ids, builds the request body for an image
 * (with the pet's breed, birth date, gender and fertility for the five
 * medical image types), signs it, posts it, and turns every failure into an
 * HTTP 502 error.
 */
module Vision {
  import opened Common
  import opened Numerals
  import opened PyValues
  import opened JsonText
  import opened Signature

  /** `ImageType`: the analysis to run, one API endpoint each. */
  datatype ImageType = Emotion | Feces | Skin | Urine | Vomitus | EarCanal
  {
    function Value(): string
    {
      match this
      case Emotion => "emotion-recognition"
      case Feces => "feces-recognition"
      case Skin => "skin-recognition"
      case Urine => "urine-recognition"
      case Vomitus => "vomitus-recognition"
      case EarCanal => "ear-canal-recognition"
    }

    /** The medical analyses, which need the pet's details besides the image. */
    predicate NeedsPetDetails()
    {
      this in {Feces, Skin, Urine, Vomitus, EarCanal}
    }
  }

  /** Distinct image types call distinct endpoints. */
  lemma ValuesDistinct(a: ImageType, b: ImageType)
    requires a != b
    ensures a.Value() != b.Value()
  {
    var va, vb := a.Value(), b.Value();
    if va[0] == vb[0] {
      assert va[1] != vb[1];
    }
  }

  datatype VaccinationRecord = VaccinationRecord(vaccine: string, date: int)

  datatype MedicalHistory = MedicalHistory(date: int, diagnosis: string)

  /** `PetInfo`; dates are proleptic Gregorian ordinals (`date.toordinal()`). */
  datatype PetInfo = PetInfo(
    petId: string,
    name: string,
    species: string,
    breed: string,
    age: int,
    weight: real,
    vaccinationRecords: seq<VaccinationRecord>,
    medicalHistory: seq<MedicalHistory>)

  // ---------------------------------------------------------------- breed map

  /** One item of the breed file, as `item["name"]: item["id"]` reads it; None when that raises. */
  function BreedEntry(item: PyValue): (r: Option<Option<(string, PyValue)>>)
    ensures r.Some? && r.value.Some? ==> Field(item, "name") == Some(PyStr(r.value.value.0)) && Field(item, "id") == Some(r.value.value.1)
  {
    match item
    case PyDict(fields) =>
      if "id" !in fields || "name" !in fields then None
      else (
        match fields["name"]
        case PyStr(name) => Some(Some((name, fields["id"])))
        case PyList(_) => None
        case PyDict(_) => None
        // a hashable name that is not a string: kept by Python, but never found by a string lookup
        case _ => Some(None))
    case _ => None
  }

  /** The dict comprehension over the items in order; None when an item raises. */
  function BreedMapOf(items: seq<PyValue>): Option<map<string, PyValue>>
    decreases |items|
  {
    if items == [] then Some(map[])
    else
      match BreedMapOf(items[..|items| - 1])
      case None => None
      case Some(m) =>
        match BreedEntry(items[|items| - 1])
        case None => None
        case Some(None) => Some(m)
        case Some(Some((name, id))) => Some(m[name := id])
  }

  /**
   * `_load_breed_map`: the name-to-id map of the breed file; a missing or
   * unreadable file, a file that is not a list, and an item without a name
   * or an id all give the empty map.
   */
  function BreedMap(loaded: Outcome<PyValue>): map<string, PyValue>
  {
    match loaded
    case Ok(PyList(items)) => BreedMapOf(items).GetOr(map[])
    case _ => map[]
  }

  /** Item `i` carries string name `name`. */
  predicate NamedAt(items: seq<PyValue>, i: int, name: string)
    requires 0 <= i < |items|
  {
    Field(items[i], "name") == Some(PyStr(name))
  }

  /** The last item decides the entry for its own name and leaves every other name as it was. */
  lemma BreedMapStep(items: seq<PyValue>, name: string)
    requires items != [] && BreedMapOf(items).Some?
    ensures BreedMapOf(items[..|items| - 1]).Some?
    ensures var n := |items| - 1;
            var m, m0 := BreedMapOf(items).value, BreedMapOf(items[..n]).value;
            && (NamedAt(items, n, name) ==> name in m && Field(items[n], "id") == Some(m[name]))
            && (!NamedAt(items, n, name) ==> (name in m <==> name in m0) && (name in m ==> m[name] == m0[name]))
  {
  }

  /** A name is mapped exactly when some item carries it. */
  lemma {:induction false} BreedMapNames(items: seq<PyValue>, name: string)
    requires BreedMapOf(items).Some?
    ensures name in BreedMapOf(items).value <==> exists i :: 0 <= i < |items| && NamedAt(items, i, name)
    decreases |items|
  {
    if items != [] {
      var n := |items| - 1;
      var init := items[..n];
      BreedMapStep(items, name);
      BreedMapNames(init, name);
      assert forall i :: 0 <= i < n ==> init[i] == items[i];
      assert forall i :: 0 <= i < n ==> (NamedAt(init, i, name) <==> NamedAt(items, i, name));
      if !NamedAt(items, n, name) && exists i :: 0 <= i < |items| && NamedAt(items, i, name) {
        var i :| 0 <= i < |items| && NamedAt(items, i, name);
        assert NamedAt(init, i, name);
      }
    }
  }

  /** A later duplicate name overwrites an earlier one: the id is the last carrier's. */
  lemma {:induction false} LastNameWins(items: seq<PyValue>, name: string, i: nat)
    requires BreedMapOf(items).Some?
    requires i < |items| && NamedAt(items, i, name)
    requires forall j :: i < j < |items| ==> !NamedAt(items, j, name)
    ensures name in BreedMapOf(items).value && Field(items[i], "id") == Some(BreedMapOf(items).value[name])
    decreases |items|
  {
    var n := |items| - 1;
    BreedMapStep(items, name);
    if i < n {
      var init := items[..n];
      assert forall j :: 0 <= j < n ==> init[j] == items[j];
      assert forall j :: 0 <= j < n ==> (NamedAt(init, j, name) <==> NamedAt(items, j, name));
      LastNameWins(init, name, i);
    }
  }

  /** Ids read from JSON are JSON values. */
  lemma {:induction false} BreedMapSerializable(items: seq<PyValue>)
    requires BreedMapOf(items).Some? && forall i :: 0 <= i < |items| ==> Serializable(items[i])
    ensures var m := BreedMapOf(items).value; forall k :: k in m ==> Serializable(m[k])
    decreases |items|
  {
    if items != [] {
      var n := |items| - 1;
      var init := items[..n];
      assert forall j :: 0 <= j < n ==> init[j] == items[j];
      BreedMapSerializable(init);
      var m, m0 := BreedMapOf(items).value, BreedMapOf(init).value;
      forall k | k in m
        ensures Serializable(m[k])
      {
        BreedMapStep(items, k);
        if NamedAt(items, n, k) {
          assert Serializable(items[n]);
        }
      }
    }
  }

  /** `_get_breed_id`: the mapped id, or 1 for a name the map does not have. */
  function GetBreedId(breedMap: map<string, PyValue>, breedName: string): (r: PyValue)
    ensures breedName in breedMap ==> r == breedMap[breedName]
    ensures breedName !in breedMap ==> r == PyInt(1)
  {
    if breedName in breedMap then breedMap[breedName] else PyInt(1)
  }

  /**
   * The id sent for a breed is the id of the last item of the file that
   * carries the name, and 1 when no item does (or the file could not be used).
   */
  lemma BreedIdOfFile(loaded: Outcome<PyValue>, name: string)
    ensures BreedMap(loaded) == map[] ==> GetBreedId(BreedMap(loaded), name) == PyInt(1)
    ensures loaded.Ok? && loaded.value.PyList? && BreedMapOf(loaded.value.items).Some? ==>
              var items := loaded.value.items;
              && ((forall i :: 0 <= i < |items| ==> !NamedAt(items, i, name)) ==> GetBreedId(BreedMap(loaded), name) == PyInt(1))
              && (forall i :: 0 <= i < |items| && NamedAt(items, i, name) && (forall j :: i < j < |items| ==> !NamedAt(items, j, name))
                    ==> Field(items[i], "id") == Some(GetBreedId(BreedMap(loaded), name)))
  {
    if loaded.Ok? && loaded.value.PyList? && BreedMapOf(loaded.value.items).Some? {
      var items := loaded.value.items;
      BreedMapNames(items, name);
      forall i | 0 <= i < |items| && NamedAt(items, i, name) && (forall j :: i < j < |items| ==> !NamedAt(items, j, name))
        ensures Field(items[i], "id") == Some(GetBreedId(BreedMap(loaded), name))
      {
        LastNameWins(items, name, i);
      }
    }
  }

  // ---------------------------------------------------------------- request

  /** The API path of an analysis. */
  function ApiPath(t: ImageType): (r: string)
    ensures StartsWith(r, "/open/v1/") && r[|"/open/v1/"|..] == t.Value()
  {
    "/open/v1/" + t.Value()
  }

  /** The position of the first `c` in `s`, if any. */
  function IndexOf(s: string, c: char): (r: Option<nat>)
    ensures r.Some? ==> r.value < |s| && s[r.value] == c && c !in s[..r.value]
    ensures r.None? ==> c !in s
    decreases |s|
  {
    if s == [] then None
    else if s[0] == c then Some(0)
    else match IndexOf(s[1..], c)
      case None => None
      case Some(i) =>
        assert s[..i + 1] == [s[0]] + s[1..][..i];
        Some(i + 1)
  }

  /** `i` is the first comma of `s`, and `r` runs from there to the next comma or the end. */
  predicate SecondPiece(s: string, i: int, r: string)
  {
    && 0 <= i < |s| && s[i] == ',' && ',' !in s[..i]
    && StartsWith(s[i + 1..], r) && (i + 1 + |r| == |s| || s[i + 1 + |r|] == ',')
  }

  /**
   * The Base64 cleaning step: with a comma in the text, the piece between the
   * first comma and the next one (or the end), as `image.split(",")[1]`.
   */
  function CleanImage(image: string): (r: string)
    ensures ',' !in image ==> r == image
    ensures ',' in image ==> ',' !in r && exists i :: SecondPiece(image, i, r)
  {
    match IndexOf(image, ',')
    case None => image
    case Some(i) =>
      var rest := image[i + 1..];
      match IndexOf(rest, ',')
      case None =>
        assert SecondPiece(image, i, rest);
        rest
      case Some(j) =>
        assert rest[..j][..j] == rest[..j];
        assert SecondPiece(image, i, rest[..j]);
        rest[..j]
  }

  /** A data URL loses its `data:<type>;base64,` header. */
  lemma CleanDataUrl(header: string, payload: string)
    requires ',' !in header && ',' !in payload
    ensures CleanImage(header + "," + payload) == payload
  {
    var s := header + "," + payload;
    assert s[|header|] == ',';
    assert s[..|header|] == header;
    assert s[|header| + 1..] == payload;
  }

  const MaxDays: int := 999999999
  const MaxOrdinal: int := 3652059

  /**
   * `date.today() - timedelta(days=age * 365)` as an ordinal; the two
   * `OverflowError`s are the day count past `timedelta`'s bound and a date
   * before 1 January of year 1 or after 31 December 9999.
   */
  function BirthOrdinal(today: int, age: int): (r: Outcome<int>)
    requires 1 <= today <= MaxOrdinal
    ensures r.Ok? ==> 1 <= r.value <= MaxOrdinal && r.value == today - age * 365
    ensures r.Raised? <==> !(-MaxDays <= age * 365 <= MaxDays) || !(1 <= today - age * 365 <= MaxOrdinal)
  {
    var days := age * 365;
    if days < -MaxDays || MaxDays < days then
      Raised("days=" + Decimal(days) + "; must have magnitude <= " + Decimal(MaxDays))
    else if today - days < 1 || MaxOrdinal < today - days then Raised("date value out of range")
    else Ok(today - days)
  }

  /** `strftime("%Y-%m-%d")` of an ordinal date. */
  type DateFormat = int -> string

  /** The multimodal API's answer as the HTTP client reports it. */
  datatype CallResult =
    /** A 2xx response and its parsed JSON. */
    | Response(json: PyValue)
    /** A transport error, a non-2xx status or a body that is not JSON, with the exception's text. */
    | CallFailed(text: string)

  /** `POST url` with the body text and the headers. */
  type Post = (string, string, map<string, string>) -> CallResult

  /** `str(HTTPException(status_code, detail))`. */
  function HttpErrorText(status: int, detail: string): string
  {
    Decimal(status) + ": " + detail
  }

  /** Python's type name, as `AttributeError` reports it. */
  function TypeName(v: PyValue): string
  {
    match v
    case PyNone => "NoneType"
    case PyBool(_) => "bool"
    case PyInt(_) => "int"
    case PyStr(_) => "str"
    case PyList(_) => "list"
    case PyDict(_) => "dict"
    case PyDateTime(_) => "datetime.datetime"
  }

  /** `str(v)` inside an f-string; containers are rendered by `render`. */
  function StrOf(v: PyValue, render: PyValue -> string): string
  {
    match v
    case PyNone => "None"
    case PyBool(b) => if b then "True" else "False"
    case PyInt(i) => Decimal(i)
    case PyStr(s) => s
    case _ => render(v)
  }

  /** `result.get("code") != 0` is false: Python's `0 == False` makes both zero codes success. */
  predicate ZeroCode(result: PyValue)
  {
    Field(result, "code") == Some(PyInt(0)) || Field(result, "code") == Some(PyBool(false))
  }

  /** The `AttributeError` of calling `.get` on a value that is not a dict. */
  function NoGet(v: PyValue): string
  {
    "'" + TypeName(v) + "' object has no attribute 'get'"
  }

  const ConnectPrefix: string := "Could not connect to Multimodal Service: "
  const ApiErrorPrefix: string := "Multimodal API Error: "

  /** `"502: Could not connect to Multimodal Service: "`, how every call failure reads. */
  function FailurePrefix(): string { HttpErrorText(502, ConnectPrefix) }

  /** What the `try` block raises or returns before its `except` clause is reached. */
  function CallStep(call: CallResult, render: PyValue -> string): (r: Outcome<PyValue>)
    ensures r.Ok? <==> call.Response? && call.json.PyDict? && ZeroCode(call.json)
    ensures r.Ok? ==> r.value == call.json
  {
    match call
    case CallFailed(text) => Raised(text)
    case Response(result) =>
      if !result.PyDict? then Raised(NoGet(result))
      else if ZeroCode(result) then Ok(result)
      else
        var message := if "message" in result.fields then StrOf(result.fields["message"], render) else "Unknown error";
        Raised(HttpErrorText(502, ApiErrorPrefix + message))
  }

  /**
   * The `try` block around the call: a zero code returns the result; any
   * other code raises a 502 whose detail carries the API's message (or
   * "Unknown error"), which the `except` clause itself catches and re-wraps
   * in a second 502, like every other failure.
   */
  function InterpretCall(call: CallResult, render: PyValue -> string): (r: Outcome<PyValue>)
    ensures r.Ok? <==> call.Response? && call.json.PyDict? && ZeroCode(call.json)
    ensures r.Ok? ==> r.value == call.json
    ensures r.Raised? ==> StartsWith(r.message, FailurePrefix())
    ensures call.Response? && call.json.PyDict? && !ZeroCode(call.json) ==>
              r == Raised(FailurePrefix() + HttpErrorText(502, ApiErrorPrefix +
                     (if "message" in call.json.fields then StrOf(call.json.fields["message"], render) else "Unknown error")))
  {
    match CallStep(call, render)
    case Ok(result) => Ok(result)
    case Raised(e) =>
      PrefixedFailure(e);
      Raised(HttpErrorText(502, ConnectPrefix + e))
  }

  lemma PrefixedFailure(e: string)
    ensures HttpErrorText(502, ConnectPrefix + e) == FailurePrefix() + e
    ensures StartsWith(FailurePrefix() + e, FailurePrefix())
  {
    var d := Decimal(502);
    assert d + ": " + (ConnectPrefix + e) == (d + ": " + ConnectPrefix) + e;
    assert (FailurePrefix() + e)[..|FailurePrefix()|] == FailurePrefix();
  }

  /**
   * The request body: the cleaned image and, for the medical types, the
   * breed id, the birth date, gender 1 and fertility 1; it raises only when
   * the birth date is out of range.
   */
  function RequestBody(breedMap: map<string, PyValue>, imageBase64: string, imageType: ImageType, pet: PetInfo,
                       today: int, formatDate: DateFormat): (r: Outcome<map<string, PyValue>>)
    requires 1 <= today <= MaxOrdinal
    ensures r.Raised? <==> imageType.NeedsPetDetails() && BirthOrdinal(today, pet.age).Raised?
    ensures r.Raised? ==> r.message == BirthOrdinal(today, pet.age).message
    ensures r.Ok? ==> "image" in r.value && r.value["image"] == PyStr(CleanImage(imageBase64))
    ensures r.Ok? && !imageType.NeedsPetDetails() ==> r.value.Keys == {"image"}
    ensures r.Ok? && imageType.NeedsPetDetails() ==>
              && r.value.Keys == {"image", "breed", "birth", "gender", "fertility"}
              && r.value["breed"] == GetBreedId(breedMap, pet.breed)
              && r.value["birth"] == PyStr(formatDate(today - pet.age * 365))
              && r.value["gender"] == PyInt(1) && r.value["fertility"] == PyInt(1)
    ensures r.Ok? && (forall k :: k in breedMap ==> Serializable(breedMap[k])) ==> Serializable(PyDict(r.value))
  {
    var base := map["image" := PyStr(CleanImage(imageBase64))];
    if !imageType.NeedsPetDetails() then Ok(base)
    else
      match BirthOrdinal(today, pet.age)
      case Raised(e) => Raised(e)
      case Ok(birth) =>
        Ok(base + map["breed" := GetBreedId(breedMap, pet.breed),
                      "birth" := PyStr(formatDate(birth)),
                      "gender" := PyInt(1),
                      "fertility" := PyInt(1)])
  }

  class MultiModalService {
    const baseUrl: string
    const apiKey: string
    const apiSecret: string
    const breedMap: map<string, PyValue>

    /** The breed file's contents, or the exception reading or parsing it, are an input. */
    constructor(baseUrl: string, apiKey: string, apiSecret: string, breedFile: Outcome<PyValue>)
      requires breedFile.Ok? ==> Serializable(breedFile.value)
      ensures this.baseUrl == baseUrl && this.apiKey == apiKey && this.apiSecret == apiSecret
      ensures breedMap == BreedMap(breedFile)
      ensures JsonIds()
    {
      this.baseUrl := baseUrl;
      this.apiKey := apiKey;
      this.apiSecret := apiSecret;
      breedMap := BreedMap(breedFile);
      if breedFile.Ok? && breedFile.value.PyList? && BreedMapOf(breedFile.value.items).Some? {
        BreedMapSerializable(breedFile.value.items);
      }
    }

    /** Every breed id is a JSON value. */
    predicate JsonIds()
    {
      forall k :: k in breedMap ==> Serializable(breedMap[k])
    }

    /** What `analyze_image` answers: the planned body, signed, posted and read back. */
    function Analysis(imageBase64: string, imageType: ImageType, pet: PetInfo, today: int, formatDate: DateFormat,
                      hmac: Hmac, draws: seq<nat>, now: int, post: Post, render: PyValue -> string): Outcome<PyValue>
      requires 1 <= today <= MaxOrdinal && ValidDraws(draws)
    {
      match RequestBody(breedMap, imageBase64, imageType, pet, today, formatDate)
      case Raised(e) => Raised(e)
      case Ok(body) =>
        match GenerateSignature(hmac, apiKey, apiSecret, ApiPath(imageType), body, draws, now)
        case Raised(e) => Raised(e)
        case Ok(signed) => InterpretCall(post(baseUrl + ApiPath(imageType), signed.body, signed.headers), render)
    }

    /**
     * With the breed ids serialisable every body is signed, and the signed
     * request passes the receiver's check; a body that cannot be built
     * raises before anything is sent.
     */
    lemma AnalysisSigned(imageBase64: string, imageType: ImageType, pet: PetInfo, today: int, formatDate: DateFormat,
                         hmac: Hmac, draws: seq<nat>, now: int, post: Post, render: PyValue -> string)
      requires JsonIds() && 1 <= today <= MaxOrdinal && ValidDraws(draws)
      ensures match RequestBody(breedMap, imageBase64, imageType, pet, today, formatDate)
              case Raised(e) => Analysis(imageBase64, imageType, pet, today, formatDate, hmac, draws, now, post, render) == Raised(e)
              case Ok(body) =>
                var signed := GenerateSignature(hmac, apiKey, apiSecret, ApiPath(imageType), body, draws, now);
                && signed.Ok?
                && Verifies(hmac, apiSecret, ApiPath(imageType), signed.value)
                && Analysis(imageBase64, imageType, pet, today, formatDate, hmac, draws, now, post, render)
                   == InterpretCall(post(baseUrl + ApiPath(imageType), signed.value.body, signed.value.headers), render)
    {
      match RequestBody(breedMap, imageBase64, imageType, pet, today, formatDate)
      case Raised(e) =>
      case Ok(body) =>
        SignedRequestVerifies(hmac, apiKey, apiSecret, ApiPath(imageType), body, draws, now);
    }

    /**
     * `analyze_image`: the body is built and, for the medical types,
     * extended; it is signed and posted to `base + "/open/v1/" + type`. A
     * birth date out of range raises before anything is sent; every failure
     * after that is a 502.
     */
    method AnalyzeImage(imageBase64: string, imageType: ImageType, pet: PetInfo, today: int, formatDate: DateFormat,
                        hmac: Hmac, draws: seq<nat>, now: int, post: Post, render: PyValue -> string)
      returns (r: Outcome<PyValue>)
      requires JsonIds() && 1 <= today <= MaxOrdinal && ValidDraws(draws)
      ensures r == Analysis(imageBase64, imageType, pet, today, formatDate, hmac, draws, now, post, render)
    {
      var apiPath := ApiPath(imageType);
      var url := baseUrl + apiPath;
      var image := CleanImage(imageBase64);
      var body: map<string, PyValue> := map["image" := PyStr(image)];
      if imageType.NeedsPetDetails() {
        var birth := BirthOrdinal(today, pet.age);
        if birth.Raised? {
          return Raised(birth.message);
        }
        body := body + map["breed" := GetBreedId(breedMap, pet.breed),
                           "birth" := PyStr(formatDate(birth.value)),
                           "gender" := PyInt(1),
                           "fertility" := PyInt(1)];
      }
      assert RequestBody(breedMap, imageBase64, imageType, pet, today, formatDate) == Ok(body);
      AnalysisSigned(imageBase64, imageType, pet, today, formatDate, hmac, draws, now, post, render);
      var signed := GenerateSignature(hmac, apiKey, apiSecret, apiPath, body, draws, now);
      r := InterpretCall(post(url, signed.value.body, signed.value.headers), render);
    }
  }
}
