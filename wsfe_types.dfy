/**
 * Domain invoices and the wire records of AFIP's WSFEv1 service
 * (FECAEDetRequest, FECAECabRequest, FECAERequest, AlicIva, Tributo and
 * the responses of FECompUltimoAutorizado, FEDummy and FECAESolicitar).
 */
module WsfeTypes {
  import opened Wrappers

  /** Monetary amounts and exchange rates: opaque values copied through, never computed. */
  type Amount = int

  /** Concept codes for which the service-period fields are sent. */
  const Services: int := 2
  const ProductsAndServices: int := 3

  /** A VAT line of a domain invoice. */
  datatype InvoiceIva = InvoiceIva(documentCode: int, taxableBase: Amount, amount: Amount)

  /** A tribute (non-VAT levy) line of a domain invoice. */
  datatype InvoiceTribute =
    InvoiceTribute(documentCode: int, taxableBase: Amount, aliquot: Amount, amount: Amount)

  /**
   * The attributes of a domain invoice that the request logic reads. The three
   * totals are the results of the invoice's own getters, taken as given.
   */
  datatype Invoice = Invoice(
    concept: int,
    customerDocumentType: int,
    customerDocumentNumber: int,
    documentDate: string,
    totalAmount: Amount,
    untaxedAmount: Amount,
    taxedAmount: Amount,
    exemptAmount: Amount,
    totalIva: Amount,
    totalTributes: Amount,
    serviceFrom: string,
    serviceTo: string,
    paymentDueDate: string,
    monId: string,
    monCotiz: Amount,
    arrayIva: seq<InvoiceIva>,
    arrayTributes: seq<InvoiceTribute>,
    documentCode: int)

  /** Wire entry ns0:AlicIva. */
  datatype AlicIva = AlicIva(Id: int, BaseImp: Amount, Importe: Amount)

  /** Wire entry ns0:Tributo. */
  datatype Tributo = Tributo(Id: int, BaseImp: Amount, Alic: Amount, Importe: Amount)

  /**
   * Wire record ns0:FECAEDetRequest. Iva and Tributos are None when the field
   * is absent from the message.
   */
  datatype Detail = Detail(
    Concepto: int,
    DocTipo: int,
    DocNro: int,
    CbteDesde: int,
    CbteHasta: int,
    CbteFch: string,
    ImpTotal: Amount,
    ImpTotConc: Amount,
    ImpNeto: Amount,
    ImpOpEx: Amount,
    ImpIVA: Amount,
    ImpTrib: Amount,
    FchServDesde: string,
    FchServHasta: string,
    FchVtoPago: string,
    MonId: string,
    MonCotiz: Amount,
    Iva: Option<seq<AlicIva>>,
    Tributos: Option<seq<Tributo>>)

  /** Wire record ns0:FECAECabRequest. */
  datatype Header = Header(CantReg: int, PtoVta: int, CbteTipo: int)

  /** Wire record ns0:FECAERequest: the header and the ordered details. */
  datatype CaeRequest = CaeRequest(FeCabReq: Header, FeDetReq: seq<Detail>)

  /** Wire record ns0:FEAuthRequest. */
  datatype AuthRequest = AuthRequest(Token: string, Sign: string, Cuit: int)

  /** The access ticket obtained from the login service. */
  datatype AccessToken = AccessToken(token: string, sign: string)

  /** One entry of a response's Errors list. */
  datatype AfipErr = AfipErr(Code: int, Msg: string)

  /** Response of FECompUltimoAutorizado; an absent Errors field is the empty list. */
  datatype LastNumberResponse = LastNumberResponse(Errors: seq<AfipErr>, CbteNro: int)

  /**
   * Response of FEDummy. Errors is None when the response has no Errors
   * attribute at all, and Some(list) when it has one (the list may be empty).
   */
  datatype DummyResponse =
    DummyResponse(Errors: Option<seq<AfipErr>>, AppServer: string, DbServer: string, AuthServer: string)

  /** One per-invoice result of FECAESolicitar. */
  datatype CaeResult = CaeResult(CbteDesde: int, CbteHasta: int, Resultado: string, CAE: string, CAEFchVto: string)

  /** Response of FECAESolicitar; an absent Errors field is the empty list. */
  datatype CaeResponse = CaeResponse(Errors: seq<AfipErr>, FeDetResp: seq<CaeResult>)

  /** The three subsystems FEDummy reports on, in the order they are checked. */
  datatype Server = AppServer | DbServer | AuthServer

  /** Everything the request logic raises. */
  datatype WsfeError =
    | ValidationError(index: nat)           // the validator rejected invoices[index]
    | MixedDocumentTypes                    // AttributeError: invoices of different types
    | EmptyBatch                            // StopIteration: no invoice to take the type from
    | ProtocolError(errors: seq<AfipErr>)   // AfipError built from the response's Errors
    | ServerUnavailable(server: Server)     // a subsystem of FEDummy is not "OK"
}
