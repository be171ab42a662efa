/** The decision logic of the PortaBase API client (class `Client`): how an
    HTTP response is turned into a result or one of the client's exceptions,
    and how a qualification submission is validated and turned into the
    ordered list of multipart form fields that is posted to
    `/api/1.0/kwalificatie`.

    The HTTP transport is a `Transport` object that answers each request with a
    given function and logs what it is sent; PHP's `json_decode` is passed in
    as the function `decode`. Attachment files are opaque
    `CurlFile` values; the stream PHP opens for them is not modelled. */
module PortaBase {
  import opened Wrappers

  // ---------------------------------------------------------------------------
  // Qualification types
  // ---------------------------------------------------------------------------

  /** The six qualification kinds the remote service accepts. */
  datatype QualType = FirstAid | Passport | IdCard | DriversLicense | Vog | Rie

  /** The wire codes, in the order the client lists them when validating. */
  const QualificationCodes: seq<string> := ["ehbo", "psp", "idk", "rbw", "vog", "rie"]

  /** The wire code of a qualification kind (the `QUALIFICATION_*` constants). */
  function Code(t: QualType): (c: string)
    ensures c in QualificationCodes
  {
    match t
    case FirstAid => "ehbo"
    case Passport => "psp"
    case IdCard => "idk"
    case DriversLicense => "rbw"
    case Vog => "vog"
    case Rie => "rie"
  }

  /** The qualification kind a caller-supplied code names, if it names one. */
  function ParseType(code: string): (r: Option<QualType>)
    ensures r.Some? <==> code in QualificationCodes
    ensures r.Some? ==> Code(r.value) == code
  {
    if code == "ehbo" then Some(FirstAid)
    else if code == "psp" then Some(Passport)
    else if code == "idk" then Some(IdCard)
    else if code == "rbw" then Some(DriversLicense)
    else if code == "vog" then Some(Vog)
    else if code == "rie" then Some(Rie)
    else None
  }

  /** Every kind's code is read back as that kind: the codes are distinct. */
  lemma CodeRoundTrip(t: QualType)
    ensures ParseType(Code(t)) == Some(t)
    ensures forall u: QualType :: Code(u) == Code(t) ==> u == t
  {
  }

  // ---------------------------------------------------------------------------
  // Responses and the exception taxonomy
  // ---------------------------------------------------------------------------

  /** The exceptions the client throws. All but `InvalidParameter` carry the
      raw response body (as the exception message) and the status code (as
      the exception code). */
  datatype Error =
    | InvalidParameter(message: string)
    | InvalidRequest(body: string, code: int)
    | Unauthorized(body: string, code: int)
    | Remote(body: string, code: int)

  /** What the transport hands back: a status code and the raw body. */
  datatype Response = Response(status: int, body: string)

  /** Turns a response into the decoded body or into an exception: 200 and 201
      succeed, 400 is an invalid request, 401 is unauthorized, and every other
      status (403 included) is a generic remote failure. */
  function ParseResponse<J>(response: Response, decode: string -> J): (r: Result<J, Error>)
    ensures r.Success? <==> response.status == 200 || response.status == 201
    ensures r.Success? ==> r.value == decode(response.body)
    ensures r.Failure? ==>
      && !r.error.InvalidParameter?
      && r.error.body == response.body
      && r.error.code == response.status
    ensures r.Failure? ==> (r.error.InvalidRequest? <==> response.status == 400)
    ensures r.Failure? ==> (r.error.Unauthorized? <==> response.status == 401)
  {
    var status := response.status;
    if status == 200 || status == 201 then Success(decode(response.body))
    else if status == 400 then Failure(InvalidRequest(response.body, status))
    else if status == 401 then Failure(Unauthorized(response.body, status))
    else Failure(Remote(response.body, status))
  }

  /** Status 403 is not singled out: it is reported as a generic remote
      failure, like 404 or 500. */
  lemma ForbiddenIsRemote<J>(body: string, decode: string -> J)
    ensures ParseResponse(Response(403, body), decode) == Failure(Remote(body, 403))
  {
  }

  // ---------------------------------------------------------------------------
  // Qualification submissions
  // ---------------------------------------------------------------------------

  /** A file handed to the client (PHP's `CURLFile`): the local path it is read
      from, the file name announced to the server, and its MIME type. */
  datatype CurlFile = CurlFile(filename: string, postFilename: string, mimeType: string)

  /** The arguments of `postQualification`; the nullable ones are options. */
  datatype Submission = Submission(
    hostId: int,
    date: string,
    expireDate: string,
    typeCode: string,
    attachment: CurlFile,
    comments: Option<string>,
    lrkp: Option<string>,
    actionPlanApprovalDate: Option<string>,
    actionPlan: Option<CurlFile>,
    actionPlanExecuted: bool)

  /** The contents of one multipart field: an integer, a string, or an uploaded
      file (sent as a stream of the file, with its post file name and its MIME
      type as content type). */
  datatype Contents = Number(n: int) | Text(text: string) | Upload(file: CurlFile)

  /** One named multipart field. */
  datatype Part = Part(name: string, contents: Contents)

  /** Local validation, done before anything is built or sent: the type must be
      one of the six codes, and type `rie` needs an `lrkp` number. */
  function Validate(s: Submission): (r: Result<QualType, Error>)
    ensures r.Success? <==>
      s.typeCode in QualificationCodes && (s.typeCode == "rie" ==> s.lrkp.Some?)
    ensures r.Success? ==> Code(r.value) == s.typeCode
    ensures s.typeCode !in QualificationCodes ==>
      r == Failure(InvalidParameter("Invalid type"))
    ensures s.typeCode in QualificationCodes && r.Failure? ==>
      r == Failure(InvalidParameter("Missing parameter lrkp"))
  {
    var t := ParseType(s.typeCode);
    if t.None? then Failure(InvalidParameter("Invalid type"))
    else if s.typeCode == Code(Rie) && s.lrkp.None? then Failure(InvalidParameter("Missing parameter lrkp"))
    else Success(t.value)
  }

  /** Every field the client can send, in the order it appends them. */
  const FieldOrder: seq<string> := [
    "gastouderId", "kwalificatieType", "datumAfgifte", "verloopDatum", "bijlage1",
    "lrkpNummer", "datumAkkoordActieplan", "actieplan", "bijlage2",
    "actieplanUitgevoerd", "opmerkingen"]

  /** Whether the field at position `m` of `FieldOrder` is part of the
      request for an accepted submission `s` of kind `t`. */
  predicate SentAt(s: Submission, t: QualType, m: nat)
  {
    if m < 5 then true
    else if m == 5 then t == Rie
    else if m == 6 then s.actionPlanApprovalDate.Some?
    else if m == 7 || m == 8 then s.actionPlan.Some?
    else if m == 9 then s.actionPlan.Some? && s.actionPlanExecuted
    else if m == 10 then s.comments.Some?
    else false
  }

  /** The contents sent under the field at position `m` of `FieldOrder`. */
  function ContentsAt(s: Submission, t: QualType, m: nat): Contents
    requires Validate(s) == Success(t)
    requires SentAt(s, t, m)
  {
    if m == 0 then Number(s.hostId)
    else if m == 1 then Text(s.typeCode)
    else if m == 2 then Text(s.date)
    else if m == 3 then Text(s.expireDate)
    else if m == 4 then Upload(s.attachment)
    else if m == 5 then Text(s.lrkp.value)
    else if m == 6 then Text(s.actionPlanApprovalDate.value)
    else if m == 7 || m == 9 then Number(1)
    else if m == 8 then Upload(s.actionPlan.value)
    else Text(s.comments.value)
  }

  /** The parts for the first `k` fields of `FieldOrder`: each field that is
      sent, in that order, with its contents. */
  function Selected(s: Submission, t: QualType, k: nat): seq<Part>
    requires Validate(s) == Success(t)
    requires k <= |FieldOrder|
  {
    if k == 0 then []
    else
      Selected(s, t, k - 1) +
      (if SentAt(s, t, k - 1) then [Part(FieldOrder[k - 1], ContentsAt(s, t, k - 1))] else [])
  }

  /** The positions in `FieldOrder` of the parts of `Selected(s, t, k)`. */
  function Positions(s: Submission, t: QualType, k: nat): seq<nat>
  {
    if k == 0 then []
    else Positions(s, t, k - 1) + (if SentAt(s, t, k - 1) then [k - 1] else [])
  }

  /** The reference definition of the request body: `FieldOrder` restricted to
      the fields that are sent. */
  function Multipart(s: Submission, t: QualType): seq<Part>
    requires Validate(s) == Success(t)
  {
    Selected(s, t, |FieldOrder|)
  }

  /** Builds the multipart field list the way the client does: the five
      mandatory fields, then each optional field appended in turn. */
  method BuildMultipart(s: Submission, t: QualType) returns (parts: seq<Part>)
    requires Validate(s) == Success(t)
    ensures parts == Multipart(s, t)
  {
    parts := [
      Part("gastouderId", Number(s.hostId)),
      Part("kwalificatieType", Text(s.typeCode)),
      Part("datumAfgifte", Text(s.date)),
      Part("verloopDatum", Text(s.expireDate)),
      Part("bijlage1", Upload(s.attachment))];
    MandatorySelected(s, t);

    if s.typeCode == Code(Rie) {
      parts := parts + [Part("lrkpNummer", Text(s.lrkp.value))];
    }
    assert parts == Selected(s, t, 6);
    if s.actionPlanApprovalDate.Some? {
      parts := parts + [Part("datumAkkoordActieplan", Text(s.actionPlanApprovalDate.value))];
    }
    assert parts == Selected(s, t, 7);
    if s.actionPlan.Some? {
      parts := parts + [Part("actieplan", Number(1))];
      assert parts == Selected(s, t, 8);
      parts := parts + [Part("bijlage2", Upload(s.actionPlan.value))];
      assert parts == Selected(s, t, 9);
      if s.actionPlanExecuted {
        parts := parts + [Part("actieplanUitgevoerd", Number(1))];
      }
    } else {
      assert Selected(s, t, 9) == Selected(s, t, 8) == Selected(s, t, 7);
    }
    assert parts == Selected(s, t, 10);
    if s.comments.Some? {
      parts := parts + [Part("opmerkingen", Text(s.comments.value))];
    }
  }

  /** Validation followed by construction of the field list; the result is
      what would be posted, or the exception thrown before anything is sent. */
  method PrepareQualification(s: Submission) returns (r: Result<seq<Part>, Error>)
    ensures s.typeCode !in QualificationCodes ==>
      r == Failure(InvalidParameter("Invalid type"))
    ensures s.typeCode == "rie" && s.lrkp.None? ==>
      r == Failure(InvalidParameter("Missing parameter lrkp"))
    ensures r.Success? <==> Validate(s).Success?
    ensures r.Success? ==> r.value == Multipart(s, Validate(s).value)
  {
    var v := Validate(s);
    if v.Failure? {
      return Failure(v.error);
    }
    var parts := BuildMultipart(s, v.value);
    r := Success(parts);
  }

  /** The HTTP transport the client posts through: it answers each request
      body with `respond` and records every body it is handed in `log`. */
  class Transport {
    const respond: seq<Part> -> Response
    var log: seq<seq<Part>>

    constructor (respond: seq<Part> -> Response)
      ensures this.respond == respond && log == []
    {
      this.respond := respond;
      log := [];
    }

    /** Sends one request body and returns the response to it. */
    method Post(body: seq<Part>) returns (response: Response)
      modifies this
      ensures log == old(log) + [body]
      ensures response == respond(body)
    {
      log := log + [body];
      response := respond(body);
    }
  }

  /** `postQualification`: validates, builds the field list, posts it through
      `transport` and classifies the response. When validation fails nothing
      is posted: the transport's log is unchanged. */
  method PostQualification<J>(s: Submission, transport: Transport, decode: string -> J)
    returns (r: Result<J, Error>)
    modifies transport
    ensures s.typeCode !in QualificationCodes ==>
      r == Failure(InvalidParameter("Invalid type"))
    ensures s.typeCode == "rie" && s.lrkp.None? ==>
      r == Failure(InvalidParameter("Missing parameter lrkp"))
    ensures Validate(s).Failure? ==> transport.log == old(transport.log)
    ensures Validate(s).Success? ==>
      && transport.log == old(transport.log) + [Multipart(s, Validate(s).value)]
      && r == ParseResponse(transport.respond(Multipart(s, Validate(s).value)), decode)
  {
    var prepared := PrepareQualification(s);
    if prepared.Failure? {
      return Failure(prepared.error);
    }
    var response := transport.Post(prepared.value);
    r := ParseResponse(response, decode);
  }

  // ---------------------------------------------------------------------------
  // Properties of the field list
  // ---------------------------------------------------------------------------

  /** Whether some part is named `name`. */
  predicate HasPart(parts: seq<Part>, name: string)
  {
    exists i :: 0 <= i < |parts| && parts[i].name == name
  }

  /** The position of the first occurrence of `name` in `names`, or -1. */
  function IndexOf(names: seq<string>, name: string): (r: int)
    ensures -1 <= r < |names|
    ensures r == -1 <==> name !in names
    ensures 0 <= r ==> names[r] == name && name !in names[..r]
  {
    if |names| == 0 then -1
    else if names[0] == name then 0
    else
      var r' := IndexOf(names[1..], name);
      if r' == -1 then -1
      else
        assert names[..r' + 1] == [names[0]] + names[1..][..r'];
        r' + 1
  }

  /** The position of a field in `FieldOrder`, or -1 for an unknown name. */
  function Rank(name: string): int
  {
    IndexOf(FieldOrder, name)
  }

  /** Two different positions of `FieldOrder` hold different names. */
  lemma FieldsDistinct(i: nat, j: nat)
    requires i < |FieldOrder| && j < |FieldOrder| && i != j
    ensures FieldOrder[i] != FieldOrder[j]
  {
  }

  /** Since no name repeats in `FieldOrder`, a field's rank is its position. */
  lemma RankOfField(m: nat)
    requires m < |FieldOrder|
    ensures Rank(FieldOrder[m]) == m
  {
    var r := Rank(FieldOrder[m]);
    assert FieldOrder[m] in FieldOrder;
    if r < m {
      FieldsDistinct(r, m);
    }
  }

  /** The first five fields are always sent. */
  lemma MandatorySelected(s: Submission, t: QualType)
    requires Validate(s) == Success(t)
    ensures Selected(s, t, 5) == [
      Part("gastouderId", Number(s.hostId)),
      Part("kwalificatieType", Text(s.typeCode)),
      Part("datumAfgifte", Text(s.date)),
      Part("verloopDatum", Text(s.expireDate)),
      Part("bijlage1", Upload(s.attachment))]
  {
    assert Selected(s, t, 1) == [Part("gastouderId", Number(s.hostId))];
    assert Selected(s, t, 2) == Selected(s, t, 1) + [Part("kwalificatieType", Text(s.typeCode))];
    assert Selected(s, t, 3) == Selected(s, t, 2) + [Part("datumAfgifte", Text(s.date))];
    assert Selected(s, t, 4) == Selected(s, t, 3) + [Part("verloopDatum", Text(s.expireDate))];
  }

  /** A shorter selection is a prefix of a longer one. */
  lemma {:induction false} SelectedPrefix(s: Submission, t: QualType, k: nat, m: nat)
    requires Validate(s) == Success(t)
    requires k <= m <= |FieldOrder|
    ensures |Selected(s, t, k)| <= |Selected(s, t, m)|
    ensures Selected(s, t, m)[..|Selected(s, t, k)|] == Selected(s, t, k)
    decreases m
  {
    if k < m {
      SelectedPrefix(s, t, k, m - 1);
    }
  }

  /** The `i`-th selected part is the field at the `i`-th selected position,
      carrying that field's contents; the positions strictly increase, lie
      below `k`, and are exactly the positions below `k` that are sent. */
  lemma {:induction false} SelectedShape(s: Submission, t: QualType, k: nat)
    requires Validate(s) == Success(t)
    requires k <= |FieldOrder|
    ensures |Positions(s, t, k)| == |Selected(s, t, k)|
    ensures forall i | 0 <= i < |Positions(s, t, k)| ::
      && Positions(s, t, k)[i] < k
      && SentAt(s, t, Positions(s, t, k)[i])
      && Selected(s, t, k)[i] ==
         Part(FieldOrder[Positions(s, t, k)[i]], ContentsAt(s, t, Positions(s, t, k)[i]))
    ensures forall i, j | 0 <= i < j < |Positions(s, t, k)| ::
      Positions(s, t, k)[i] < Positions(s, t, k)[j]
    ensures forall m: nat | m < k && SentAt(s, t, m) :: m in Positions(s, t, k)
  {
    if k > 0 {
      SelectedShape(s, t, k - 1);
    }
  }

  /** The field at position `m` is among the parts exactly when it is sent;
      if it is, it sits at index `i` with `Positions(..)[i] == m`. */
  lemma FieldPresence(s: Submission, t: QualType, m: nat)
    requires Validate(s) == Success(t)
    requires m < |FieldOrder|
    ensures HasPart(Multipart(s, t), FieldOrder[m]) <==> SentAt(s, t, m)
  {
    var n := |FieldOrder|;
    var p, pos := Multipart(s, t), Positions(s, t, n);
    SelectedShape(s, t, n);
    if SentAt(s, t, m) {
      var i :| 0 <= i < |pos| && pos[i] == m;
      assert p[i].name == FieldOrder[m];
    }
    if HasPart(p, FieldOrder[m]) {
      var i :| 0 <= i < |p| && p[i].name == FieldOrder[m];
      if pos[i] != m {
        FieldsDistinct(pos[i], m);
      }
    }
  }

  /** The part at index `i` whose name is the field at position `m` is the
      one at selected position `m`. */
  lemma PositionOfPart(s: Submission, t: QualType, i: nat, m: nat)
    requires Validate(s) == Success(t)
    requires i < |Multipart(s, t)| && m < |FieldOrder|
    requires Multipart(s, t)[i].name == FieldOrder[m]
    ensures |Positions(s, t, |FieldOrder|)| == |Multipart(s, t)|
    ensures Positions(s, t, |FieldOrder|)[i] == m
    ensures SentAt(s, t, m) && Multipart(s, t)[i].contents == ContentsAt(s, t, m)
  {
    SelectedShape(s, t, |FieldOrder|);
    var q := Positions(s, t, |FieldOrder|)[i];
    if q != m {
      FieldsDistinct(q, m);
    }
  }

  /** The request always starts with the five mandatory fields, carrying the
      host id, the type code, the issue date, the expiry date and the
      attachment, in that order. */
  lemma MultipartStartsWithMandatory(s: Submission, t: QualType)
    requires Validate(s) == Success(t)
    ensures |Multipart(s, t)| >= 5
    ensures Multipart(s, t)[..5] == [
      Part("gastouderId", Number(s.hostId)),
      Part("kwalificatieType", Text(s.typeCode)),
      Part("datumAfgifte", Text(s.date)),
      Part("verloopDatum", Text(s.expireDate)),
      Part("bijlage1", Upload(s.attachment))]
  {
    MandatorySelected(s, t);
    SelectedPrefix(s, t, 5, |FieldOrder|);
  }

  /** The fields follow `FieldOrder`, so no field name occurs twice. */
  lemma MultipartOrdered(s: Submission, t: QualType)
    requires Validate(s) == Success(t)
    ensures forall i | 0 <= i < |Multipart(s, t)| :: Multipart(s, t)[i].name in FieldOrder
    ensures forall i, j | 0 <= i < j < |Multipart(s, t)| ::
      Rank(Multipart(s, t)[i].name) < Rank(Multipart(s, t)[j].name)
    ensures forall i, j | 0 <= i < j < |Multipart(s, t)| ::
      Multipart(s, t)[i].name != Multipart(s, t)[j].name
  {
    var n := |FieldOrder|;
    var p, pos := Multipart(s, t), Positions(s, t, n);
    SelectedShape(s, t, n);
    forall i | 0 <= i < |p|
      ensures p[i].name in FieldOrder && Rank(p[i].name) == pos[i]
    {
      RankOfField(pos[i]);
    }
  }

  /** Which optional fields are sent, in terms of the inputs. */
  lemma MultipartOptionalFields(s: Submission, t: QualType)
    requires Validate(s) == Success(t)
    ensures HasPart(Multipart(s, t), "lrkpNummer") <==> s.typeCode == "rie"
    ensures HasPart(Multipart(s, t), "datumAkkoordActieplan") <==> s.actionPlanApprovalDate.Some?
    ensures HasPart(Multipart(s, t), "actieplan") <==> s.actionPlan.Some?
    ensures HasPart(Multipart(s, t), "bijlage2") <==> s.actionPlan.Some?
    ensures HasPart(Multipart(s, t), "actieplanUitgevoerd") <==>
      s.actionPlan.Some? && s.actionPlanExecuted
    ensures HasPart(Multipart(s, t), "opmerkingen") <==> s.comments.Some?
    ensures HasPart(Multipart(s, t), "actieplanUitgevoerd") ==> HasPart(Multipart(s, t), "actieplan")
  {
    CodeRoundTrip(t);
    FieldPresence(s, t, 5);
    FieldPresence(s, t, 6);
    FieldPresence(s, t, 7);
    FieldPresence(s, t, 8);
    FieldPresence(s, t, 9);
    FieldPresence(s, t, 10);
  }

  /** What the optional fields carry when they are sent. */
  lemma MultipartOptionalContents(s: Submission, t: QualType)
    requires Validate(s) == Success(t)
    ensures forall i | 0 <= i < |Multipart(s, t)| ::
      && (Multipart(s, t)[i].name == "lrkpNummer" ==>
            s.lrkp.Some? && Multipart(s, t)[i].contents == Text(s.lrkp.value))
      && (Multipart(s, t)[i].name == "datumAkkoordActieplan" ==>
            s.actionPlanApprovalDate.Some? &&
            Multipart(s, t)[i].contents == Text(s.actionPlanApprovalDate.value))
      && (Multipart(s, t)[i].name == "actieplan" ==> Multipart(s, t)[i].contents == Number(1))
      && (Multipart(s, t)[i].name == "bijlage2" ==>
            s.actionPlan.Some? && Multipart(s, t)[i].contents == Upload(s.actionPlan.value))
      && (Multipart(s, t)[i].name == "actieplanUitgevoerd" ==> Multipart(s, t)[i].contents == Number(1))
      && (Multipart(s, t)[i].name == "opmerkingen" ==>
            s.comments.Some? && Multipart(s, t)[i].contents == Text(s.comments.value))
  {
    var p := Multipart(s, t);
    forall i | 0 <= i < |p|
      ensures p[i].name == "lrkpNummer" ==> s.lrkp.Some? && p[i].contents == Text(s.lrkp.value)
      ensures p[i].name == "datumAkkoordActieplan" ==>
        s.actionPlanApprovalDate.Some? && p[i].contents == Text(s.actionPlanApprovalDate.value)
      ensures p[i].name == "actieplan" ==> p[i].contents == Number(1)
      ensures p[i].name == "bijlage2" ==> s.actionPlan.Some? && p[i].contents == Upload(s.actionPlan.value)
      ensures p[i].name == "actieplanUitgevoerd" ==> p[i].contents == Number(1)
      ensures p[i].name == "opmerkingen" ==> s.comments.Some? && p[i].contents == Text(s.comments.value)
    {
      CodeRoundTrip(t);
      var name := p[i].name;
      if name == FieldOrder[5] { PositionOfPart(s, t, i, 5); }
      else if name == FieldOrder[6] { PositionOfPart(s, t, i, 6); }
      else if name == FieldOrder[7] { PositionOfPart(s, t, i, 7); }
      else if name == FieldOrder[8] { PositionOfPart(s, t, i, 8); }
      else if name == FieldOrder[9] { PositionOfPart(s, t, i, 9); }
      else if name == FieldOrder[10] { PositionOfPart(s, t, i, 10); }
    }
  }

  /** The action-plan flag is immediately followed by the action-plan file. */
  lemma MultipartActionPlanFollowedByFile(s: Submission, t: QualType)
    requires Validate(s) == Success(t)
    ensures forall i | 0 <= i < |Multipart(s, t)| && Multipart(s, t)[i].name == "actieplan" ::
      i + 1 < |Multipart(s, t)| && Multipart(s, t)[i + 1].name == "bijlage2"
  {
    var n := |FieldOrder|;
    var p, pos := Multipart(s, t), Positions(s, t, n);
    SelectedShape(s, t, n);
    forall i | 0 <= i < |p| && p[i].name == "actieplan"
      ensures i + 1 < |p| && p[i + 1].name == "bijlage2"
    {
      PositionOfPart(s, t, i, 7);
      assert 8 in pos;
      var j :| 0 <= j < |pos| && pos[j] == 8;
      assert i < j;
      assert i + 1 < |p| && pos[i + 1] == 8;
    }
  }
}
