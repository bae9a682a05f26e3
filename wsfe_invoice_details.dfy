/**
 * WsfeInvoiceDetails: turns one domain invoice and the last authorized
 * number into the FECAEDetRequest wire record.
 *
 * BuildDetail is the detail the source ends up with; the class
 * InvoiceDetails fills its `detail` field step by step, as the source does,
 * and is proved to arrive at BuildDetail.
 */
module WsfeInvoiceDetails {
  import opened Wrappers
  import opened WsfeTypes

  /** Reads an AlicIva entry back as the invoice line it came from. */
  function IvaOf(a: AlicIva): InvoiceIva {
    InvoiceIva(a.Id, a.BaseImp, a.Importe)
  }

  /** Reads a Tributo entry back as the invoice line it came from. */
  function TributeOf(t: Tributo): InvoiceTribute {
    InvoiceTribute(t.Id, t.BaseImp, t.Alic, t.Importe)
  }

  /** One VAT line as an AlicIva entry: nothing is lost. */
  function SerializeIva(iva: InvoiceIva): (r: AlicIva)
    ensures IvaOf(r) == iva
  {
    AlicIva(Id := iva.documentCode, BaseImp := iva.taxableBase, Importe := iva.amount)
  }

  /** One tribute line as a Tributo entry: nothing is lost. */
  function SerializeTribute(tribute: InvoiceTribute): (r: Tributo)
    ensures TributeOf(r) == tribute
  {
    Tributo(Id := tribute.documentCode, BaseImp := tribute.taxableBase,
            Alic := tribute.aliquot, Importe := tribute.amount)
  }

  /** The VAT lines as an ArrayOfAlicIva: one entry per line, in the same order. */
  function SerializeIvaArray(ivas: seq<InvoiceIva>): (r: seq<AlicIva>)
    ensures |r| == |ivas|
    ensures forall i :: 0 <= i < |ivas| ==> IvaOf(r[i]) == ivas[i]
  {
    if ivas == [] then [] else [SerializeIva(ivas[0])] + SerializeIvaArray(ivas[1..])
  }

  /** The tribute lines as an ArrayOfTributo: one entry per line, in the same order. */
  function SerializeTributeArray(tributes: seq<InvoiceTribute>): (r: seq<Tributo>)
    ensures |r| == |tributes|
    ensures forall i :: 0 <= i < |tributes| ==> TributeOf(r[i]) == tributes[i]
  {
    if tributes == [] then [] else [SerializeTribute(tributes[0])] + SerializeTributeArray(tributes[1..])
  }

  /** Whether the concept code asks for the service-period fields. */
  predicate HasServicePeriod(concept: int) {
    concept == Services || concept == ProductsAndServices
  }

  /**
   * A fresh FECAEDetRequest before any field is set. The service leaves its
   * fields unset; here they hold placeholders that the detail builder
   * overwrites, except Iva and Tributos, which stay absent.
   */
  function BlankDetail(): (d: Detail)
    ensures d.Iva == None && d.Tributos == None
  {
    Detail(0, 0, 0, 0, 0, "", 0, 0, 0, 0, 0, 0, "", "", "", "", 0, None, None)
  }

  /** The detail record built for `invoice` when the last authorized number is `lastInvoiceNumber`. */
  function BuildDetail(invoice: Invoice, lastInvoiceNumber: int): (d: Detail)
    // a single voucher: both ends of the range are the next number
    ensures d.CbteDesde == lastInvoiceNumber + 1 && d.CbteHasta == lastInvoiceNumber + 1
    ensures d.Concepto == invoice.concept && d.CbteFch == invoice.documentDate
    ensures d.DocTipo == invoice.customerDocumentType && d.DocNro == invoice.customerDocumentNumber
    ensures d.ImpTotal == invoice.totalAmount && d.ImpTotConc == invoice.untaxedAmount
    ensures d.ImpNeto == invoice.taxedAmount && d.ImpOpEx == invoice.exemptAmount
    ensures d.ImpIVA == invoice.totalIva && d.ImpTrib == invoice.totalTributes
    ensures d.MonId == invoice.monId && d.MonCotiz == invoice.monCotiz
    // service-period fields: empty for goods, copied for services and mixed
    ensures !HasServicePeriod(invoice.concept) ==>
              d.FchServDesde == "" && d.FchServHasta == "" && d.FchVtoPago == ""
    ensures HasServicePeriod(invoice.concept) ==>
              d.FchServDesde == invoice.serviceFrom && d.FchServHasta == invoice.serviceTo &&
              d.FchVtoPago == invoice.paymentDueDate
    // VAT and tributes: absent when the invoice has none, else one entry per line in order
    ensures d.Iva.Some? <==> |invoice.arrayIva| > 0
    ensures d.Iva.Some? ==>
              |d.Iva.value| == |invoice.arrayIva| &&
              forall i :: 0 <= i < |invoice.arrayIva| ==> IvaOf(d.Iva.value[i]) == invoice.arrayIva[i]
    ensures d.Tributos.Some? <==> |invoice.arrayTributes| > 0
    ensures d.Tributos.Some? ==>
              |d.Tributos.value| == |invoice.arrayTributes| &&
              forall i :: 0 <= i < |invoice.arrayTributes| ==>
                TributeOf(d.Tributos.value[i]) == invoice.arrayTributes[i]
  {
    var service := HasServicePeriod(invoice.concept);
    Detail(
      Concepto := invoice.concept,
      DocTipo := invoice.customerDocumentType,
      DocNro := invoice.customerDocumentNumber,
      CbteDesde := lastInvoiceNumber + 1,
      CbteHasta := lastInvoiceNumber + 1,
      CbteFch := invoice.documentDate,
      ImpTotal := invoice.totalAmount,
      ImpTotConc := invoice.untaxedAmount,
      ImpNeto := invoice.taxedAmount,
      ImpOpEx := invoice.exemptAmount,
      ImpIVA := invoice.totalIva,
      ImpTrib := invoice.totalTributes,
      FchServDesde := if service then invoice.serviceFrom else "",
      FchServHasta := if service then invoice.serviceTo else "",
      FchVtoPago := if service then invoice.paymentDueDate else "",
      MonId := invoice.monId,
      MonCotiz := invoice.monCotiz,
      Iva := if |invoice.arrayIva| > 0 then Some(SerializeIvaArray(invoice.arrayIva)) else None,
      Tributos := if |invoice.arrayTributes| > 0
                  then Some(SerializeTributeArray(invoice.arrayTributes)) else None)
  }

  /** The builder object: one invoice, the last number, and the detail being filled in. */
  class InvoiceDetails {
    const invoice: Invoice
    const lastInvoiceNumber: int
    var detail: Option<Detail>

    constructor (invoice: Invoice, lastInvoiceNumber: int)
      ensures this.invoice == invoice && this.lastInvoiceNumber == lastInvoiceNumber
      ensures detail == None
    {
      this.invoice := invoice;
      this.lastInvoiceNumber := lastInvoiceNumber;
      detail := None;
    }

    /** Fills in the detail and returns it. */
    method GetDetails() returns (d: Detail)
      modifies this
      ensures d == BuildDetail(invoice, lastInvoiceNumber)
      ensures detail == Some(d)
    {
      SetDetails();
      d := detail.value;
    }

    /** Sets every field of a fresh detail from the invoice, then the VAT and tribute arrays. */
    method SetDetails()
      modifies this
      ensures detail == Some(BuildDetail(invoice, lastInvoiceNumber))
    {
      var d := BlankDetail();
      d := d.(Concepto := invoice.concept);
      d := d.(DocTipo := invoice.customerDocumentType);
      d := d.(DocNro := invoice.customerDocumentNumber);
      d := d.(CbteDesde := lastInvoiceNumber + 1);
      d := d.(CbteHasta := lastInvoiceNumber + 1);
      d := d.(CbteFch := invoice.documentDate);
      d := d.(ImpTotal := invoice.totalAmount);
      d := d.(ImpTotConc := invoice.untaxedAmount);
      d := d.(ImpNeto := invoice.taxedAmount);
      d := d.(ImpOpEx := invoice.exemptAmount);
      d := d.(ImpIVA := invoice.totalIva);
      d := d.(ImpTrib := invoice.totalTributes);
      if !HasServicePeriod(invoice.concept) {
        d := d.(FchServDesde := "", FchServHasta := "", FchVtoPago := "");
      } else {
        d := d.(FchServDesde := invoice.serviceFrom, FchServHasta := invoice.serviceTo,
                FchVtoPago := invoice.paymentDueDate);
      }
      d := d.(MonId := invoice.monId);
      d := d.(MonCotiz := invoice.monCotiz);
      detail := Some(d);
      SetIva();
      SetTributes();
    }

    /** Attaches the VAT array when the invoice has VAT lines; otherwise leaves the detail alone. */
    method SetIva()
      requires detail.Some?
      modifies this
      ensures |invoice.arrayIva| > 0 ==>
                detail == Some(old(detail).value.(Iva := Some(SerializeIvaArray(invoice.arrayIva))))
      ensures |invoice.arrayIva| == 0 ==> detail == old(detail)
    {
      if |invoice.arrayIva| > 0 {
        detail := Some(detail.value.(Iva := Some(SerializeIvaArray(invoice.arrayIva))));
      }
    }

    /** Attaches the tribute array when the invoice has tribute lines; otherwise leaves the detail alone. */
    method SetTributes()
      requires detail.Some?
      modifies this
      ensures |invoice.arrayTributes| > 0 ==>
                detail == Some(old(detail).value.(Tributos := Some(SerializeTributeArray(invoice.arrayTributes))))
      ensures |invoice.arrayTributes| == 0 ==> detail == old(detail)
    {
      if |invoice.arrayTributes| > 0 {
        detail := Some(detail.value.(Tributos := Some(SerializeTributeArray(invoice.arrayTributes))));
      }
    }
  }
}
