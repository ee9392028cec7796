/**
 * The `_prepare_hka_*` builders of an invoice (`account.move`): pure maps from the
 * invoice's data to the nested "documentoElectronico" record sent to The Factory HKA.
 *
 * Every text that the source renders with `strftime` (issue date, due date, emission
 * time) is an input here, already formatted; an unset date is `None`, on which the
 * source's `strftime` raises. Amounts are exact reals rendered with `Fixed2`.
 */
module HkaPayload {
  import opened Wrappers
  import opened Text

  /** Operation type "Venta interna" (SUNAT catalogue No. 51). */
  const OPERATION_TYPE_CODE := "0101"
  /** IGV affectation "Gravado - Operación Onerosa" (SUNAT catalogue No. 07). */
  const IGV_AFFECTATION_CODE := "10"
  /** Unit of measure "Unidad (bienes)" (SUNAT catalogue No. 03). */
  const UNIT_CODE := "NIU"
  /** The place of issue the issuer block always carries. */
  const PLACE_OF_ISSUE := "0000"
  /** The recipient block never asks HKA to notify the customer. */
  const NOTIFY_RECIPIENT := "NO"
  /** Payment mode the payload always declares. */
  const CASH_PAYMENT := "Contado"

  // ---------------------------------------------------------------- invoice data

  /** The issuing company as the builder reads it (`company_id`). */
  datatype Company = Company(
    vat: Option<string>,
    name: string,
    street: Option<string>,
    street2: Option<string>,
    city: Option<string>,
    stateName: Option<string>,
    countryCode: Option<string>,
    partnerZip: Option<string>)

  /** The customer (`partner_id`) and the SUNAT code of its identification type. */
  datatype Partner = Partner(idTypeCode: Option<string>, vat: Option<string>, name: string)

  /**
   * One invoice line: its label, quantity, unit price, subtotal without tax, total with
   * tax and the `amount` of each of its taxes, in order.
   */
  datatype Line = Line(
    name: string,
    quantity: real,
    priceUnit: real,
    priceSubtotal: real,
    priceTotal: real,
    taxAmounts: seq<real>)

  /** What the payload builders read from one invoice. */
  datatype InvoiceData = InvoiceData(
    name: string,
    invoiceDate: Option<string>,
    invoiceDateDue: Option<string>,
    documentTypeCode: Option<string>,
    company: Company,
    partner: Partner,
    lines: seq<Line>,
    amountTotal: real,
    amountTax: real,
    amountUntaxed: real,
    currency: string)

  // ---------------------------------------------------------------- payload

  /**
   * A monetary or percentage field of the payload. The source renders it with
   * `f"{value:.2f}"`; the text that goes on the wire is `Text()`.
   */
  datatype Amount = Amount(value: real) {
    function Text(): string { Fixed2(value) }
  }

  /**
   * Every amount goes on the wire as `[-]D+.DD`: negative exactly when the value is,
   * and reading back as the value's magnitude rounded to the nearest hundredth.
   */
  lemma AmountText(a: Amount)
    ensures IsFixed2Text(a.Text())
    ensures a.Text()[0] == '-' <==> a.value < 0.0
    ensures Fixed2Magnitude(a.Text()) == Cents(a.value)
    ensures Abs(a.value) * 100.0 - 0.5 <= Fixed2Magnitude(a.Text()) as real <= Abs(a.value) * 100.0 + 0.5
  {
    Fixed2Denotes(a.value);
  }

  /** The header keys; the source spreads them at the top level of the payload. */
  datatype Header = Header(
    fechaEmision: string,
    fechaVencimiento: string,
    horaEmision: string,
    tipoDocumento: Option<string>,
    serie: string,
    correlativo: string,
    codigoTipoOperacion: string)

  datatype Emisor = Emisor(
    ruc: string,
    nombreComercial: string,
    lugarExpedicion: string,
    domicilioFiscal: string,
    urbanizacion: string,
    distrito: string,
    provincia: string,
    departamento: string,
    codigoPais: string,
    ubigeo: string)

  datatype Receptor = Receptor(tipoDocumento: string, numDocumento: string, razonSocial: string, notificar: string)

  datatype Igv = Igv(baseImponible: Amount, porcentaje: Amount, monto: Amount, tipo: string)

  datatype Item = Item(
    numeroOrden: string,
    descripcion: string,
    cantidad: string,
    unidadMedida: string,
    valorUnitarioBI: Amount,
    valorVentaItemQxBI: Amount,
    precioVentaUnitarioItem: Amount,
    montoTotalImpuestoItem: Amount,
    igv: Igv)

  datatype Totals = Totals(
    importeTotalPagar: Amount,
    importeTotalVenta: Amount,
    montoTotalImpuestos: Amount,
    subtotalValorVenta: Amount,
    totalIGV: Amount,
    subtotalIgv: Amount)

  datatype FacturaNegociable = FacturaNegociable(modoPago: string, montoNetoPendiente: string)

  datatype Pago = Pago(fechaInicio: string, fechaFin: string, moneda: string)

  datatype Payload = Payload(
    header: Header,
    emisor: Emisor,
    receptor: Receptor,
    facturaNegociable: FacturaNegociable,
    producto: seq<Item>,
    totales: Totals,
    pago: Pago)

  /** Why building a payload raises. */
  datatype BuildError =
    | DateMissing        // `strftime` called on an unset (False) date
    | NameWithoutHyphen  // `name.split('-', 1)` gave one part, so the unpacking fails

  /** `str(e)` of the exception each build error raises in Python. */
  function BuildErrorText(e: BuildError): string
  {
    match e
    case DateMissing => "'bool' object has no attribute 'strftime'"
    case NameWithoutHyphen => "not enough values to unpack (expected 2, got 1)"
  }

  /** Python's `value or ''` for a text field that may be unset. */
  function OrEmpty(o: Option<string>): string
  {
    if o.Some? then o.value else ""
  }

  // ---------------------------------------------------------------- builders

  /**
   * What building the header raises, if anything: the dates are formatted before the
   * name is split, so a missing date is reported even when the name has no hyphen.
   */
  function BuildFailure(d: InvoiceData): Option<BuildError>
  {
    if d.invoiceDate.None? || d.invoiceDateDue.None? then Some(DateMissing)
    else if '-' !in d.name then Some(NameWithoutHyphen)
    else None
  }

  /**
   * `_prepare_hka_header`: the dates, the emission time and the invoice name split at
   * its first hyphen into series and number.
   */
  function PrepareHeader(d: InvoiceData, emissionTime: string): (r: Result<Header>)
    ensures r.Success? <==> d.invoiceDate.Some? && d.invoiceDateDue.Some? && '-' in d.name
    ensures r.Failure? <==> BuildFailure(d).Some?
    ensures r.Failure? ==> r.error == BuildErrorText(BuildFailure(d).value)
    ensures r.Success? ==>
      && r.value.serie + "-" + r.value.correlativo == d.name
      && '-' !in r.value.serie
      && r.value.fechaEmision == d.invoiceDate.value
      && r.value.fechaVencimiento == d.invoiceDateDue.value
      && r.value.codigoTipoOperacion == OPERATION_TYPE_CODE
  {
    if d.invoiceDate.None? || d.invoiceDateDue.None? then Failure(BuildErrorText(DateMissing))
    else
      match SplitFirst(d.name, '-')
      case None => Failure(BuildErrorText(NameWithoutHyphen))
      case Some(parts) =>
        Success(Header(d.invoiceDate.value, d.invoiceDateDue.value, emissionTime,
                       d.documentTypeCode, parts.0, parts.1, OPERATION_TYPE_CODE))
  }

  /** `_prepare_hka_emisor`: the issuing company's identity and address. */
  function PrepareEmisor(c: Company): (r: Emisor)
    ensures r.provincia == r.departamento == OrEmpty(c.stateName)
    ensures r.lugarExpedicion == PLACE_OF_ISSUE
    ensures r.ruc == OrEmpty(c.vat)
    ensures r.ruc == "" <==> c.vat.None? || c.vat.value == ""
    ensures r.nombreComercial == c.name && r.distrito == OrEmpty(c.city)
  {
    Emisor(OrEmpty(c.vat), c.name, PLACE_OF_ISSUE, OrEmpty(c.street), OrEmpty(c.street2),
           OrEmpty(c.city), OrEmpty(c.stateName), OrEmpty(c.stateName),
           OrEmpty(c.countryCode), OrEmpty(c.partnerZip))
  }

  /** `_prepare_hka_receptor`: the customer's identification and name. */
  function PrepareReceptor(p: Partner): (r: Receptor)
    ensures r.notificar == NOTIFY_RECIPIENT
    ensures r.tipoDocumento == OrEmpty(p.idTypeCode)
    ensures r.tipoDocumento == "" <==> p.idTypeCode.None? || p.idTypeCode.value == ""
    ensures r.numDocumento == OrEmpty(p.vat) && r.razonSocial == p.name
  {
    Receptor(OrEmpty(p.idTypeCode), OrEmpty(p.vat), p.name, NOTIFY_RECIPIENT)
  }

  /**
   * The IGV rate of a line: the first of its tax amounts that is not zero, or zero
   * when there is none (`tax_ids.filtered(lambda t: t.amount).mapped('amount')`).
   */
  function TaxRate(taxAmounts: seq<real>): (rate: real)
    ensures rate == 0.0 <==> forall k :: 0 <= k < |taxAmounts| ==> taxAmounts[k] == 0.0
    ensures rate != 0.0 ==>
      exists k :: 0 <= k < |taxAmounts| && taxAmounts[k] == rate && forall j :: 0 <= j < k ==> taxAmounts[j] == 0.0
  {
    if taxAmounts == [] then 0.0
    else if taxAmounts[0] != 0.0 then taxAmounts[0]
    else
      var rate := TaxRate(taxAmounts[1..]);
      assert forall k :: 1 <= k < |taxAmounts| ==> taxAmounts[k] == taxAmounts[1..][k - 1];
      rate
  }

  /** The IGV amount of a line: its subtotal times its rate, over one hundred. */
  function LineTax(line: Line): real
  {
    line.priceSubtotal * TaxRate(line.taxAmounts) / 100.0
  }

  /** One entry of `producto`, for the line at 1-based position `position`. */
  function PrepareItem(position: nat, line: Line): Item
  {
    var base := Amount(line.priceSubtotal);
    var tax := Amount(LineTax(line));
    Item(NatToString(position), line.name, IntToString(Trunc(line.quantity)), UNIT_CODE,
         Amount(line.priceUnit), base, Amount(line.priceTotal), tax,
         Igv(base, Amount(TaxRate(line.taxAmounts)), tax, IGV_AFFECTATION_CODE))
  }

  /** The items for `lines`, numbered from `first` on. */
  function ItemsFrom(lines: seq<Line>, first: nat): (items: seq<Item>)
    ensures |items| == |lines|
    ensures forall i :: 0 <= i < |lines| ==> items[i] == PrepareItem(first + i, lines[i])
    decreases |lines|
  {
    if lines == [] then [] else [PrepareItem(first, lines[0])] + ItemsFrom(lines[1..], first + 1)
  }

  /** `_prepare_hka_items`: one item per invoice line, numbered from 1. */
  function PrepareItems(lines: seq<Line>): seq<Item>
  {
    ItemsFrom(lines, 1)
  }

  /** `_prepare_hka_totals`: the invoice's three amounts, each shown where the API expects it. */
  function PrepareTotals(d: InvoiceData): Totals
  {
    var total := Amount(d.amountTotal);
    var tax := Amount(d.amountTax);
    var untaxed := Amount(d.amountUntaxed);
    Totals(total, total, tax, untaxed, tax, untaxed)
  }

  /** `_prepare_hka_payment`: a payment period that starts and ends on the issue date. */
  function PreparePayment(issueDate: string, currency: string): Pago
  {
    Pago(issueDate, issueDate, currency)
  }

  /** The payment terms the payload declares: always cash, nothing pending. */
  const CASH_TERMS := FacturaNegociable(CASH_PAYMENT, "0")

  /** `_prepare_hka_payload`: all sections together; it fails exactly when the header does. */
  function PreparePayload(d: InvoiceData, emissionTime: string): (r: Result<Payload>)
    ensures r.Success? <==> PrepareHeader(d, emissionTime).Success?
    ensures r.Failure? <==> BuildFailure(d).Some?
    ensures r.Failure? ==> r.error == BuildErrorText(BuildFailure(d).value)
    ensures r.Success? ==>
      r.value.header == PrepareHeader(d, emissionTime).value && |r.value.producto| == |d.lines|
  {
    match PrepareHeader(d, emissionTime)
    case Failure(e) => Failure(e)
    case Success(header) =>
      Success(Payload(header, PrepareEmisor(d.company), PrepareReceptor(d.partner), CASH_TERMS,
                      PrepareItems(d.lines), PrepareTotals(d),
                      PreparePayment(d.invoiceDate.value, d.currency)))
  }

  // ---------------------------------------------------------------- properties

  /**
   * Items follow the invoice lines one to one and in order: item `i` carries the
   * label of line `i`, its number reads back as `i + 1`, and its quantity as the
   * line's quantity truncated toward zero.
   */
  lemma ItemsFollowLines(lines: seq<Line>)
    ensures |PrepareItems(lines)| == |lines|
    ensures forall i :: 0 <= i < |lines| ==>
      && AllDigits(PrepareItems(lines)[i].numeroOrden)
      && DigitsValue(PrepareItems(lines)[i].numeroOrden) == i + 1
      && PrepareItems(lines)[i].descripcion == lines[i].name
      && PrepareItems(lines)[i].unidadMedida == UNIT_CODE
  {
    forall i | 0 <= i < |lines|
      ensures DigitsValue(PrepareItems(lines)[i].numeroOrden) == i + 1
    {
      NatToStringRoundTrip(i + 1);
    }
  }

  /** Two different items never carry the same number. */
  lemma ItemNumbersDistinct(lines: seq<Line>, i: nat, j: nat)
    requires i < j < |lines|
    ensures PrepareItems(lines)[i].numeroOrden != PrepareItems(lines)[j].numeroOrden
  {
    if PrepareItems(lines)[i].numeroOrden == PrepareItems(lines)[j].numeroOrden {
      NatToStringInjective(i + 1, j + 1);
    }
  }

  /** The quantity an item shows reads back as the line quantity truncated toward zero. */
  lemma ItemQuantity(position: nat, line: Line)
    ensures var q := PrepareItem(position, line).cantidad;
      |q| >= 1 && (if q[0] == '-' then AllDigits(q[1..]) else AllDigits(q))
      && SignedValue(q) == Trunc(line.quantity)
  {
    IntToStringRoundTrip(Trunc(line.quantity));
  }

  /**
   * The tax of an item is stated twice and both agree: the item's tax and the IGV
   * block's amount are the subtotal times the rate over one hundred; the taxable base
   * is the subtotal, also stated twice.
   */
  lemma ItemTaxAmounts(position: nat, line: Line)
    ensures var it := PrepareItem(position, line);
      && it.montoTotalImpuestoItem == it.igv.monto
      && it.igv.monto.value == line.priceSubtotal * TaxRate(line.taxAmounts) / 100.0
      && it.igv.baseImponible == it.valorVentaItemQxBI
      && it.igv.baseImponible.value == line.priceSubtotal
      && it.igv.tipo == IGV_AFFECTATION_CODE
  {
  }

  /**
   * A built payload names the invoice: its series, a hyphen and its number give the
   * invoice name back, and the series has no hyphen.
   */
  lemma PayloadNamesInvoice(d: InvoiceData, emissionTime: string)
    requires PreparePayload(d, emissionTime).Success?
    ensures var h := PreparePayload(d, emissionTime).value.header;
      h.serie + "-" + h.correlativo == d.name && '-' !in h.serie
      && SplitFirst(d.name, '-') == Some((h.serie, h.correlativo))
  {
    var h := PreparePayload(d, emissionTime).value.header;
    SplitFirstOfJoin(h.serie, h.correlativo, '-');
  }

  /**
   * The sections of a built payload are copies of the invoice's amounts and dates:
   * total payable and total sale are the grand total, total taxes and total IGV the
   * tax amount, the sale subtotal and the IGV subtotal the untaxed amount; the payment
   * period starts and ends on the issue date; payment is always cash with nothing pending.
   */
  lemma PayloadSections(d: InvoiceData, emissionTime: string)
    requires PreparePayload(d, emissionTime).Success?
    ensures var p := PreparePayload(d, emissionTime).value;
      && p.totales.importeTotalPagar == p.totales.importeTotalVenta == Amount(d.amountTotal)
      && p.totales.montoTotalImpuestos == p.totales.totalIGV == Amount(d.amountTax)
      && p.totales.subtotalValorVenta == p.totales.subtotalIgv == Amount(d.amountUntaxed)
      && p.pago.fechaInicio == p.pago.fechaFin == p.header.fechaEmision == d.invoiceDate.value
      && p.facturaNegociable == FacturaNegociable("Contado", "0")
      && p.producto == PrepareItems(d.lines)
  {
  }
}
