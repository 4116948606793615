# Quote pricing for custom sportswear sets

A Dafny model of the pricing computation of `cotizador_buzos.py`, a one-page
quoting app for custom tracksuits and jackets. The customer enters five size
quantities (XS, S, M, L, XL) and may upload a logo file. The page then computes
fabric and lining metres, eight cost terms, a total cost and a suggested price
per set, all from a constant rate table (`precios`). With no garments it shows
a warning and prices nothing.

Everything is in `cotizador.dfy`, module `Cotizador`. The model is pure, like
the source: datatypes for the rate table (`Precios`, constant `PRECIOS`), the
size quantities (`Cantidades`), the whole form (`Pedido`) and the breakdown
(`Cotizacion`); functions for the garment total (`Total`), the number of sizes
used (`TallasUsadas`), the straight-line cost block (`Desglose`) and the guarded
entry point (`Cotizar`). The page's "no garments" branch is the `None` result of
`Cotizar`, not a precondition.

Amounts are exact `real`s. The cutting rate 45/12 is 3.75 exactly, and every
other rate is a finite decimal. So the model states exact identities: the total
cost is 62.95 per garment plus 55 per size used plus the digitizing fee, and
the suggested price is 79.95 plus the fixed charges spread over the run.

Two facts about the code shape every quote:
- The embroidery term (4 per garment) is charged on every order, with no
  condition (cotizador_buzos.py:94).
- The digitizing fee (10) is charged exactly when a logo file was uploaded
  (cotizador_buzos.py:79, 95).

For S=2, M=3 the code gives a total cost of 424.75 and a suggested price of
101.95 without a logo, and 434.75 and 103.95 with one (`WorkedExample`).

## Model

| member | source | states |
|---|---|---|
| `Cotizador.Total` | cotizador_buzos.py:68-73 | the garment total is the sum of the five size quantities, taken over the size list; it is 0 exactly when every quantity is 0 |
| `Cotizador.CountUsed` | cotizador_buzos.py:89 | the number of listed sizes with a positive quantity is at most the list length and at most the listed garments, and at least 1 when any garment is listed |
| `Cotizador.TallasUsadas` | cotizador_buzos.py:89 | `tallas_usadas` is at most 5 and at most the garment total, and at least 1 whenever the total is positive |
| `Cotizador.TallasUsadasPerSize` | cotizador_buzos.py:89 | `tallas_usadas` adds 1 for each of XS, S, M, L, XL whose quantity is positive |
| `Cotizador.CountUsedIsCard` | cotizador_buzos.py:89 | over a list of distinct sizes, the count of used sizes equals the cardinality of the set of size labels with a positive quantity |
| `Cotizador.UsedSizesCount` | cotizador_buzos.py:89 | `tallas_usadas` is the number of distinct size labels ordered |
| `Cotizador.UsedSizesMembers` | cotizador_buzos.py:89 | a size label is among the used sizes exactly when its quantity is positive |
| `Cotizador.Desglose` | cotizador_buzos.py:84-98 | the cost block keeps the size count it was given; the total cost is the left-to-right sum of the eight terms; suggested price times garments equals total cost plus the 17-per-garment margin |
| `Cotizador.Cotizar` | cotizador_buzos.py:83-98 | a quote exists exactly when the garment total is positive; its size count lies between 1 and 5 and does not exceed the total |
| `Cotizador.CotizarPedido` | cotizador_buzos.py:66-98 | from the whole form, a quote exists exactly when some size quantity is non-zero |
| `Cotizador.CotizarCountsUsedSizes` | cotizador_buzos.py:89-90 | the quote's size count equals the number of distinct size labels ordered |
| `Cotizador.DesgloseTerms` | cotizador_buzos.py:84-95 | each term in closed form: 2.7 m fabric and 1 m lining per garment, fabric 29.7, lining 4.5, sewing 18, cutting 3.75, accessories 3 and embroidery 4 per garment, pattern 55 per size used, digitizing 10 or 0 by logo |
| `Cotizador.DesgloseCostoTotal` | cotizador_buzos.py:84-97 | the eight terms add up to 62.95 per garment plus 55 per size used plus the digitizing fee |
| `Cotizador.DesglosePrecio` | cotizador_buzos.py:97-98 | the suggested price is 79.95 plus (55 per size used plus the digitizing fee) divided by the garment total |
| `Cotizador.MetersAreLinear` | cotizador_buzos.py:84-85 | fabric metres are exactly 2.7 per garment and lining metres exactly 1 per garment |
| `Cotizador.PatronajeDependsOnlyOnUsedSizes` | cotizador_buzos.py:89-90 | two orders that use the same sizes get the same pattern-making charge, whatever the quantities and the logo |
| `Cotizador.EmbroideryAndDigitizing` | cotizador_buzos.py:94-95 | embroidery is 4 per garment with no condition; digitizing is 10 when a logo was uploaded and 0 otherwise |
| `Cotizador.CostoTotalClosedForm` | cotizador_buzos.py:84-97 | the quote's total cost is 62.95 per garment plus 55 per size used plus the digitizing fee |
| `Cotizador.PrecioSugeridoClosedForm` | cotizador_buzos.py:98 | the suggested price is 79.95 plus the fixed charges spread over the garments, and so always exceeds 79.95 |
| `Cotizador.PrecioNonIncreasing` | cotizador_buzos.py:98 | with the used sizes and the logo fixed, a larger garment total never raises the suggested price |
| `Cotizador.CountUsedMonotone` | cotizador_buzos.py:89 | raising quantities never lowers the number of sizes used |
| `Cotizador.CostoTotalMonotone` | cotizador_buzos.py:84-97 | raising any size quantities never lowers the total cost |
| `Cotizador.RaiseCounts` | cotizador_buzos.py:73-89 | adding d garments of one size adds d to the total and adds one used size exactly when that size was empty and d is positive |
| `Cotizador.RaiseOneSizeCost` | cotizador_buzos.py:84-97 | adding d garments of one size adds exactly 62.95 per garment to the total cost, plus 55 when that size was not ordered before |
| `Cotizador.LogoAddsDigitizingFee` | cotizador_buzos.py:95-98 | uploading a logo raises the total cost by exactly 10 and the suggested price by 10 divided by the garment total, and changes no other figure |
| `Cotizador.MetadataDoesNotAffectPrice` | cotizador_buzos.py:84-98 | the garment model, set type, colour and comment never change the quote |
| `Cotizador.WorkedExample` | cotizador_buzos.py:84-98 | S=2, M=3: 2 sizes used, total cost 424.75 and price 101.95 without a logo, 434.75 and 103.95 with one |
| `Cotizador.EmptyOrderHasNoQuote` | cotizador_buzos.py:146-147 | with every quantity 0 there is no quote |

## Left out

- Page setup, catalogue, columns, images and buttons (cotizador_buzos.py:11-28, 43-81): user interface driven by the framework's re-execution model. The form is modelled only as its values (`Pedido`).
- The selected-model session state (cotizador_buzos.py:14-15, 59, 62): framework-owned interface state; it never enters the price. The form, and so any quote, exists only once a model has been chosen (cotizador_buzos.py:62); `Pedido.modelo` stands for the chosen model's name, and `CotizarPedido` does not check that it is non-empty.
- PDF generation, temporary files, writing the logo to disk and the download button (cotizador_buzos.py:104-133): calls into an external PDF library and file I/O.
- The messaging-app text and the percent-encoded link (cotizador_buzos.py:136-145): string presentation through a library encoder.
- Floating-point arithmetic and two-decimal display (cotizador_buzos.py:100-101): amounts are exact reals. The page uses binary doubles, where 2.7 is not exact, so its figures can differ from the model's in the last bits before rounding for display.
- Determinism and idempotence of a quote hold by construction, since every member is a function; no lemma states them separately.
