/**
 * Wsfe: the session with the WSFEv1 service. It selects the endpoint,
 * checks that a batch shares one voucher type, builds the header, numbers
 * the details consecutively after the last authorized voucher, and gates
 * the service's responses on their Errors lists.
 *
 * Remote operations are parameters: `lastNumberService(auth, pos, type)` stands
 * for FECompUltimoAutorizado, `submit(auth, request)` for FECAESolicitar,
 * and `isValid` for the external invoice validator.
 */
module Wsfe {
  import opened Wrappers
  import opened WsfeTypes
  import opened WsfeInvoiceDetails

  /** Keys of the endpoint table used when no explicit url is given. */
  const HomologationKey: string := "wsfev1_homologation"
  const ProductionKey: string := "wsfev1_production"

  /** The state a Wsfe object is given when it is created; it never changes afterwards. */
  datatype Session = Session(url: Option<string>, cuit: int, authRequest: AuthRequest)

  /**
   * The endpoint: a non-empty explicit url wins; otherwise the homologation or
   * the production entry of the table, absent when the table lacks it.
   */
  function SelectServiceUrl(serviceUrls: map<string, string>, homologation: bool, url: Option<string>)
    : (r: Option<string>)
    ensures url.Some? && url.value != "" ==> r == url
    ensures url.None? || url.value == "" ==>
              var key := if homologation then HomologationKey else ProductionKey;
              (r.Some? <==> key in serviceUrls) && (r.Some? ==> r.value == serviceUrls[key])
  {
    if url.Some? && url.value != "" then url
    else
      var key := if homologation then HomologationKey else ProductionKey;
      if key in serviceUrls then Some(serviceUrls[key]) else None
  }

  /** A new session: the endpoint, and the FEAuthRequest every call carries. */
  function NewSession(accessToken: AccessToken, cuit: int, serviceUrls: map<string, string>,
                      homologation: bool := true, url: Option<string> := None): (s: Session)
    ensures s.url == SelectServiceUrl(serviceUrls, homologation, url)
    ensures s.cuit == cuit
    ensures s.authRequest.Token == accessToken.token && s.authRequest.Sign == accessToken.sign
    ensures s.authRequest.Cuit == cuit
  {
    Session(SelectServiceUrl(serviceUrls, homologation, url), cuit,
            AuthRequest(Token := accessToken.token, Sign := accessToken.sign, Cuit := cuit))
  }

  /** Without homologation and url arguments a session uses the homologation entry of the table. */
  lemma DefaultSessionIsHomologation(accessToken: AccessToken, cuit: int, serviceUrls: map<string, string>)
    ensures var s := NewSession(accessToken, cuit, serviceUrls);
            (s.url.Some? <==> HomologationKey in serviceUrls) &&
            (s.url.Some? ==> s.url.value == serviceUrls[HomologationKey])
  {
  }

  // ---------------------------------------------------------------------------
  // Response gates

  /** The subsystems of FEDummy in the order they are checked. */
  const CheckOrder: seq<Server> := [AppServer, DbServer, AuthServer]

  /** The status FEDummy reports for one subsystem. */
  function StatusOf(res: DummyResponse, server: Server): string {
    match server
    case AppServer => res.AppServer
    case DbServer => res.DbServer
    case AuthServer => res.AuthServer
  }

  /**
   * Interprets an FEDummy response: an Errors attribute raises a protocol
   * error; otherwise the first subsystem, in check order, that is not "OK"
   * raises; otherwise the check passes.
   */
  function CheckWebserviceStatus(res: DummyResponse): (r: Outcome<WsfeError>)
    ensures res.Errors.Some? ==> r == Fail(ProtocolError(res.Errors.value))
    ensures r == Pass <==> res.Errors.None? && forall s :: StatusOf(res, s) == "OK"
    ensures forall k :: 0 <= k < |CheckOrder| ==>
              (r == Fail(ServerUnavailable(CheckOrder[k])) <==>
                 res.Errors.None? && StatusOf(res, CheckOrder[k]) != "OK" &&
                 forall j :: 0 <= j < k ==> StatusOf(res, CheckOrder[j]) == "OK")
  {
    assert CheckOrder[0] == AppServer && CheckOrder[1] == DbServer && CheckOrder[2] == AuthServer;
    assert StatusOf(res, AppServer) == res.AppServer && StatusOf(res, DbServer) == res.DbServer &&
           StatusOf(res, AuthServer) == res.AuthServer;
    if res.Errors.Some? then Fail(ProtocolError(res.Errors.value))
    else if res.AppServer != "OK" then Fail(ServerUnavailable(AppServer))
    else if res.DbServer != "OK" then Fail(ServerUnavailable(DbServer))
    else if res.AuthServer != "OK" then Fail(ServerUnavailable(AuthServer))
    else Pass
  }

  /** Raises a protocol error carrying the whole Errors list exactly when that list is non-empty. */
  function ShowError(response: CaeResponse): (r: Outcome<WsfeError>)
    ensures r.Fail? <==> |response.Errors| > 0
    ensures r.Fail? ==> r.error == ProtocolError(response.Errors)
  {
    if |response.Errors| > 0 then Fail(ProtocolError(response.Errors)) else Pass
  }

  /**
   * Asks, under the credentials `auth`, for the last authorized voucher number
   * of (posNumber, documentTypeNumber): the reported CbteNro, or a protocol
   * error when the response lists errors.
   */
  function GetLastNumber(lastNumberService: (AuthRequest, int, int) -> LastNumberResponse, auth: AuthRequest,
                         posNumber: int, documentTypeNumber: int): (r: Result<int, WsfeError>)
    ensures var response := lastNumberService(auth, posNumber, documentTypeNumber);
            (r.Success? <==> |response.Errors| == 0) &&
            (r.Success? ==> r.value == response.CbteNro) &&
            (r.Failure? ==> r.error == ProtocolError(response.Errors))
  {
    var response := lastNumberService(auth, posNumber, documentTypeNumber);
    if |response.Errors| > 0 then Failure(ProtocolError(response.Errors))
    else Success(response.CbteNro)
  }

  // ---------------------------------------------------------------------------
  // Batch header

  /** The distinct voucher types of a batch. */
  function DocumentTypes(invoices: seq<Invoice>): set<int> {
    set i | 0 <= i < |invoices| :: invoices[i].documentCode
  }

  /** Every invoice of the batch has the same voucher type. */
  predicate SameDocumentType(invoices: seq<Invoice>) {
    forall i, j :: 0 <= i < |invoices| && 0 <= j < |invoices| ==>
      invoices[i].documentCode == invoices[j].documentCode
  }

  /** More than one distinct voucher type is exactly a pair of invoices whose types differ. */
  lemma MixedTypesIffSeveralCodes(invoices: seq<Invoice>)
    ensures |DocumentTypes(invoices)| > 1 <==> !SameDocumentType(invoices)
  {
    var types := DocumentTypes(invoices);
    if |types| > 1 {
      var a :| a in types;
      assert |types - {a}| == |types| - 1;
      var b :| b in types - {a};
      var i :| 0 <= i < |invoices| && invoices[i].documentCode == a;
      var j :| 0 <= j < |invoices| && invoices[j].documentCode == b;
      assert invoices[i].documentCode != invoices[j].documentCode;
    }
    if !SameDocumentType(invoices) {
      var i, j :| 0 <= i < |invoices| && 0 <= j < |invoices| &&
                  invoices[i].documentCode != invoices[j].documentCode;
      var a, b := invoices[i].documentCode, invoices[j].documentCode;
      assert a in types && b in types;
      assert b in types - {a};
      assert |types - {a}| == |types| - 1;
    }
  }

  /**
   * The voucher type shared by the batch: fails when the batch mixes types,
   * and when it is empty (there is no type to take).
   */
  function GetDocumentType(invoices: seq<Invoice>): (r: Result<int, WsfeError>)
    ensures r == Failure(MixedDocumentTypes) <==> !SameDocumentType(invoices)
    ensures r == Failure(EmptyBatch) <==> |invoices| == 0
    ensures r.Success? <==> |invoices| > 0 && SameDocumentType(invoices)
    ensures r.Success? ==> forall i :: 0 <= i < |invoices| ==> invoices[i].documentCode == r.value
    ensures r.Success? ==> DocumentTypes(invoices) == {r.value}
  {
    MixedTypesIffSeveralCodes(invoices);
    if |DocumentTypes(invoices)| > 1 then Failure(MixedDocumentTypes)
    else if |invoices| == 0 then Failure(EmptyBatch)
    else Success(invoices[0].documentCode)
  }

  /** The FECAECabRequest of a batch: its size, the point of sale and the shared voucher type. */
  function SetHeader(invoices: seq<Invoice>, pos: int): (r: Result<Header, WsfeError>)
    ensures r.Success? <==> |invoices| > 0 && SameDocumentType(invoices)
    ensures !SameDocumentType(invoices) ==> r == Failure(MixedDocumentTypes)
    ensures |invoices| == 0 ==> r == Failure(EmptyBatch)
    ensures r.Success? ==> r.value.CantReg == |invoices| && r.value.PtoVta == pos
    ensures r.Success? ==> forall i :: 0 <= i < |invoices| ==> invoices[i].documentCode == r.value.CbteTipo
  {
    match GetDocumentType(invoices)
    case Failure(e) => Failure(e)
    case Success(documentType) => Success(Header(CantReg := |invoices|, PtoVta := pos, CbteTipo := documentType))
  }

  // ---------------------------------------------------------------------------
  // Numbering and the full request

  /** The details of a batch, each invoice taking the number after the previous one's. */
  function Details(invoices: seq<Invoice>, lastInvoice: int): (r: seq<Detail>)
    ensures |r| == |invoices|
    ensures invoices != [] ==> r[0].CbteDesde == lastInvoice + 1
  {
    if invoices == [] then []
    else [BuildDetail(invoices[0], lastInvoice)] + Details(invoices[1..], lastInvoice + 1)
  }

  /** Invoice i of the batch is built with last number lastInvoice + i, so it gets lastInvoice + 1 + i. */
  lemma {:induction false} DetailsNumbering(invoices: seq<Invoice>, lastInvoice: int)
    ensures |Details(invoices, lastInvoice)| == |invoices|
    ensures forall i :: 0 <= i < |invoices| ==>
              Details(invoices, lastInvoice)[i] == BuildDetail(invoices[i], lastInvoice + i)
  {
    if invoices != [] {
      DetailsNumbering(invoices[1..], lastInvoice + 1);
      forall i | 0 <= i < |invoices|
        ensures Details(invoices, lastInvoice)[i] == BuildDetail(invoices[i], lastInvoice + i)
      {
        if i > 0 {
          assert invoices[1..][i - 1] == invoices[i];
        }
      }
    }
  }

  /**
   * The FECAERequest for a batch: header first (type check), then the last
   * authorized number for the header's point of sale and type, then one
   * detail per invoice.
   */
  function AssembleRequest(auth: AuthRequest, invoices: seq<Invoice>, pos: int,
                           lastNumberService: (AuthRequest, int, int) -> LastNumberResponse)
    : (r: Result<CaeRequest, WsfeError>)
    // a mixed or empty batch fails before the last number is asked for
    ensures !SameDocumentType(invoices) ==> r == Failure(MixedDocumentTypes)
    ensures |invoices| == 0 ==> r == Failure(EmptyBatch)
    ensures |invoices| > 0 && SameDocumentType(invoices) ==>
              var response := lastNumberService(auth, pos, invoices[0].documentCode);
              (r.Failure? <==> |response.Errors| > 0) &&
              (r.Failure? ==> r.error == ProtocolError(response.Errors)) &&
              (r.Success? ==>
                 var request := r.value;
                 request.FeCabReq == Header(|invoices|, pos, invoices[0].documentCode) &&
                 |request.FeDetReq| == request.FeCabReq.CantReg &&
                 forall i :: 0 <= i < |invoices| ==>
                   request.FeDetReq[i] == BuildDetail(invoices[i], response.CbteNro + i))
  {
    match SetHeader(invoices, pos)
    case Failure(e) => Failure(e)
    case Success(header) =>
      match GetLastNumber(lastNumberService, auth, header.PtoVta, header.CbteTipo)
      case Failure(e) => Failure(e)
      case Success(lastInvoice) =>
        DetailsNumbering(invoices, lastInvoice);
        Success(CaeRequest(FeCabReq := header, FeDetReq := Details(invoices, lastInvoice)))
  }

  /** Builds the FECAERequest as the source does: the loop advances the number once per invoice. */
  method SetCaeRequest(auth: AuthRequest, invoices: seq<Invoice>, pos: int,
                       lastNumberService: (AuthRequest, int, int) -> LastNumberResponse)
    returns (r: Result<CaeRequest, WsfeError>)
    ensures r == AssembleRequest(auth, invoices, pos, lastNumberService)
  {
    var headerResult := SetHeader(invoices, pos);
    if headerResult.Failure? {
      return Failure(headerResult.error);
    }
    var header := headerResult.value;
    var lastResult := GetLastNumber(lastNumberService, auth, header.PtoVta, header.CbteTipo);
    if lastResult.Failure? {
      return Failure(lastResult.error);
    }
    ghost var first := lastResult.value;
    var lastInvoice := lastResult.value;
    var details: seq<Detail> := [];
    var k := 0;
    while k < |invoices|
      invariant 0 <= k <= |invoices|
      invariant lastInvoice == first + k
      invariant |details| == k
      invariant forall i :: 0 <= i < k ==> details[i] == BuildDetail(invoices[i], first + i)
    {
      var builder := new InvoiceDetails(invoices[k], lastInvoice);
      var detail := builder.GetDetails();
      details := details + [detail];
      lastInvoice := lastInvoice + 1;
      k := k + 1;
    }
    DetailsNumbering(invoices, first);
    assert details == Details(invoices, first);
    r := Success(CaeRequest(FeCabReq := header, FeDetReq := details));
  }

  /**
   * Runs the validator over the batch in order; the first invoice it rejects
   * stops the batch.
   */
  method ValidateInvoices(invoices: seq<Invoice>, isValid: Invoice -> bool) returns (r: Outcome<WsfeError>)
    ensures r == Pass <==> forall i :: 0 <= i < |invoices| ==> isValid(invoices[i])
    ensures r.Fail? ==>
              r.error.ValidationError? && r.error.index < |invoices| &&
              !isValid(invoices[r.error.index]) &&
              forall j :: 0 <= j < r.error.index ==> isValid(invoices[j])
  {
    var k := 0;
    while k < |invoices|
      invariant 0 <= k <= |invoices|
      invariant forall j :: 0 <= j < k ==> isValid(invoices[j])
    {
      if !isValid(invoices[k]) {
        return Fail(ValidationError(k));
      }
      k := k + 1;
    }
    r := Pass;
  }

  /**
   * Requests CAEs for a batch: validation, then the request, then one
   * FECAESolicitar call; returns the response together with the request
   * that was sent. The response is not gated here.
   */
  method GetCae(session: Session, invoices: seq<Invoice>, pos: int, isValid: Invoice -> bool,
                lastNumberService: (AuthRequest, int, int) -> LastNumberResponse,
                submit: (AuthRequest, CaeRequest) -> CaeResponse)
    returns (r: Result<(CaeResponse, CaeRequest), WsfeError>)
    ensures (exists i :: 0 <= i < |invoices| && !isValid(invoices[i])) ==>
              r.Failure? && r.error.ValidationError? && r.error.index < |invoices| &&
              !isValid(invoices[r.error.index]) &&
              forall j :: 0 <= j < r.error.index ==> isValid(invoices[j])
    ensures (forall i :: 0 <= i < |invoices| ==> isValid(invoices[i])) ==>
              var assembled := AssembleRequest(session.authRequest, invoices, pos, lastNumberService);
              (r.Failure? <==> assembled.Failure?) &&
              (r.Failure? ==> r.error == assembled.error) &&
              (r.Success? ==> r.value == (submit(session.authRequest, assembled.value), assembled.value))
  {
    var validation := ValidateInvoices(invoices, isValid);
    if validation.Fail? {
      return Failure(validation.error);
    }
    var request := SetCaeRequest(session.authRequest, invoices, pos, lastNumberService);
    if request.Failure? {
      return Failure(request.error);
    }
    var response := submit(session.authRequest, request.value);
    r := Success((response, request.value));
  }

  // ---------------------------------------------------------------------------
  // Properties relating several calls

  /**
   * Numbers of a successful request run from the last authorized number plus
   * one, with no gap and no repeat, and each detail covers a single voucher.
   */
  lemma ConsecutiveNumbers(auth: AuthRequest, invoices: seq<Invoice>, pos: int,
                           lastNumberService: (AuthRequest, int, int) -> LastNumberResponse)
    requires AssembleRequest(auth, invoices, pos, lastNumberService).Success?
    ensures var details := AssembleRequest(auth, invoices, pos, lastNumberService).value.FeDetReq;
            var last := lastNumberService(auth, pos, invoices[0].documentCode).CbteNro;
            |details| == |invoices| &&
            (forall i :: 0 <= i < |details| ==>
               details[i].CbteDesde == details[i].CbteHasta == last + 1 + i) &&
            (forall i, j :: 0 <= i < j < |details| ==> details[i].CbteDesde < details[j].CbteDesde)
  {
  }

  /**
   * Two batches of the same point of sale and type, the second submitted
   * after the first was authorized (so its last number is the first's last
   * assigned number), never share a number.
   */
  lemma SequentialBatchesNeverReuse(auth: AuthRequest, first: seq<Invoice>, second: seq<Invoice>, pos: int,
                                    service1: (AuthRequest, int, int) -> LastNumberResponse,
                                    service2: (AuthRequest, int, int) -> LastNumberResponse)
    requires AssembleRequest(auth, first, pos, service1).Success?
    requires AssembleRequest(auth, second, pos, service2).Success?
    requires second[0].documentCode == first[0].documentCode
    requires service2(auth, pos, second[0].documentCode).CbteNro ==
             service1(auth, pos, first[0].documentCode).CbteNro + |first|
    ensures var d1 := AssembleRequest(auth, first, pos, service1).value.FeDetReq;
            var d2 := AssembleRequest(auth, second, pos, service2).value.FeDetReq;
            forall i, j :: 0 <= i < |d1| && 0 <= j < |d2| ==> d1[i].CbteDesde < d2[j].CbteDesde
  {
  }
}
