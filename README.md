# Receipts, line items and products of the PyME front end

This project models the client-side business rules of the PyME billing front
end in Dafny:

- **The receipt hook** `useComprobantes` (`ReceiptManager`). It holds one company's receipt
  ("comprobante") collection, the draft being edited, whether the form is
  visible, the error map, and a browser key-value store with one entry per
  company.
  - Submitting a draft validates it. A valid draft is then either created or
    updated:
    - creation gives it a fresh id, a number `B001-nnnnn` / `F001-nnnnn` taken from
      the count of receipts of its type, the company stamp and a default date;
    - update writes it over the entries with its id.
  - In both cases the whole collection is written to the store and the form is
    closed.
  - Removal happens only after a confirmation.
- **The receipt form** `ComprobanteModalForm` (`LineItems`, `ReceiptForm`). It keeps the
  list of product lines, with one line per product, where subtotal = quantity ×
  unit price. Its operations are:
  - add a product;
  - set a quantity (a quantity of zero or less removes the line);
  - remove a line;
  - compute the total.

  On submit it hands the draft, with those lines and their total, to the receipt hook.
- **The three list reducers** for receipts, products and companies
  (`ComprobanteReducer`, `ProductoReducer`, `EmpresasReducer`). Each supports
  load, add, update by id, remove by id, and ignores any other action.
  They are built on the id-keyed `map`/`filter` of `Collection`.
- **The product hook** `useProductos` (`Productos`, `ProductManager`). It has:
  - a four-field required check that yields a field-keyed error map, where a
    unit price of `0` or `""` counts as missing because the check is on
    JavaScript falsiness;
  - create/update routing on `id == 0`;
  - the guard that skips loading for a falsy company id;
  - the form handlers.

`Decimal` gives the integer-to-text conversion, `padStart`, and the inverse
used to read numbers back. Money is in integer cents.

Several inputs are parameters of the operations rather than things the model
produces:

- the clock: the id a creation gets and today's date;
- the answer to the confirmation dialog;
- whether reading or writing the store fails;
- the replies of the remote product service.

The hooks' state lives in classes whose methods change the fields step by step.
The list transformations are pure functions. Each method's contract ties the
new state to those functions.

The receipt validator, as written, puts all three keys in the error map and
gives a passing check the empty string rather than leaving its key out. The
model follows the code. An update keeps the receipt number only because the
draft carries the stored number: `ResubmitUnchanged` shows that resubmitting a
stored receipt unchanged gives back the same collection. Numbers count the
receipts currently held, so after a removal a new receipt can get a number
already in use (`NumberReusedAfterRemoval`).

## Model

| member | source | states |
|---|---|---|
| Decimal.NatToDecimal | src/hooks/useComprobantes.js:59 | the text of a natural is one or more digits and starts with 0 only for 0 |
| Decimal.PadStart | src/hooks/useComprobantes.js:59 | the padded text has the requested width (or the text's own length if longer), ends with the text and is fill before it |
| Decimal.ParseNatToDecimal | src/hooks/useComprobantes.js:59 | reading the digits of n back gives n |
| Decimal.ParseLeadingZeros | src/hooks/useComprobantes.js:59 | leading zeros added by padding do not change the value read back |
| Decimal.IntToDecimal | src/hooks/useComprobantes.js:23 | the text of an integer is non-empty and starts with a minus sign exactly for a negative integer; `IntToDecimalInjective` shows no two integers share it |
| Decimal.NatToDecimalWidth | src/hooks/useComprobantes.js:59 | a natural below ten to the w has at most w digits |
| Decimal.PaddedToFive | src/hooks/useComprobantes.js:59 | a natural below 100000 padded to five is exactly five characters |
| Decimal.NatToDecimalInjective | src/hooks/useComprobantes.js:59 | different naturals never have the same text |
| Decimal.IntToDecimalInjective | src/hooks/useComprobantes.js:23 | different integers never have the same text |
| Receipts.InitialForm | src/hooks/useComprobantes.js:5-14 | the blank draft has id 0, type BOLETA, the given date, empty client fields, no items and total 0 |
| Receipts.Passes | src/hooks/useComprobantes.js:66 | the draft's check: client name and document non-empty and at least one item; `ValidationErrorsEmptyIffPasses` ties it to the error map |
| Receipts.ValidationErrors | src/hooks/useComprobantes.js:66-71 | the error map has exactly the three keys, and each carries a message exactly when its check fails |
| Receipts.ValidationErrorsEmptyIffPasses | src/hooks/useComprobantes.js:66-73 | the map holds no message exactly when the draft passes, and the all-failing draft gets all three messages |
| Receipts.NumeroComprobante | src/hooks/useComprobantes.js:56-61 | `generateNumeroComprobante` over the held collection; its format, width and value are stated by `NumeroFormat`, its exact text for small counts by `NumeroSingleDigit` |
| Receipts.NumeroFormat | src/hooks/useComprobantes.js:56-61 | a number is "B001-" for BOLETA or "F001-" otherwise, then at least five digits reading back as one more than the count of receipts of that type, exactly five (ten characters in all) while that count is below 100000 |
| Receipts.CountTipoAppend | src/hooks/useComprobantes.js:58 | appending a receipt raises only its own type's count, by one |
| Receipts.NumeroAfterAppend | src/hooks/useComprobantes.js:56-61 | after one more receipt of a type its next number is one higher, and other types' numbers do not move |
| Receipts.NumeroSingleDigit | src/hooks/useComprobantes.js:59-60 | below nine receipts of a type the number is the prefix, "-0000" and one digit |
| Receipts.FirstBoleta | src/hooks/useComprobantes.js:56-61 | with no BOLETA held the next is B001-00001 |
| Receipts.SecondBoleta | src/hooks/useComprobantes.js:56-61 | with one BOLETA held the next is B001-00002 |
| Receipts.FirstFactura | src/hooks/useComprobantes.js:56-61 | with no FACTURA held the next is F001-00001 |
| Receipts.StorageKey | src/hooks/useComprobantes.js:23 | the per-company key `comprobantes_empresa_<id>`; `StorageKeyInjective` shows each company has its own |
| Receipts.StorageKeyInjective | src/hooks/useComprobantes.js:23 | two companies never share a store key |
| Collection.MapKey | src/reducers/comprobanteReducer.js:14-22 | the rewrite keeps the length, rewrites exactly the entries with the key and leaves the others |
| Collection.RemoveKey | src/reducers/comprobanteReducer.js:24-25 | the filter drops as many entries as carry the key and leaves none with it |
| Collection.RemoveKeyMembers | src/reducers/comprobanteReducer.js:24-25 | every kept entry was in the list, and every entry with another key is kept |
| Collection.CountKeyZero | src/reducers/comprobanteReducer.js:24-25 | nothing is dropped exactly when no entry carries the key |
| Collection.RemoveKeyAppend | src/reducers/comprobanteReducer.js:24-25 | the filter distributes over concatenation, so kept entries keep their order |
| Collection.RemoveKeyAbsent | src/reducers/comprobanteReducer.js:24-25 | filtering out a key no entry carries changes nothing |
| Collection.RemoveKeyIdempotent | src/reducers/comprobanteReducer.js:24-25 | filtering twice equals filtering once |
| Collection.MapKeyAbsent | src/reducers/comprobanteReducer.js:14-22 | rewriting a key no entry carries changes nothing |
| ComprobanteReducer.Reduce | src/reducers/comprobanteReducer.js:1-30 | load gives the payload; add appends it after an unchanged prefix; update keeps the length and replaces exactly the entries with its id; remove leaves no entry with the id and shrinks by their count; any other action is a no-op |
| ComprobanteReducer.RemoveExact | src/reducers/comprobanteReducer.js:24-25 | removal keeps exactly the entries with other ids, and removing twice equals removing once |
| ProductoReducer.Reduce | src/reducers/productoReducer.js:1-21 | the same five cases for the product list |
| ProductoReducer.RemoveExact | src/reducers/productoReducer.js:16-17 | removal keeps exactly the products with other ids, and is idempotent |
| EmpresasReducer.Reduce | src/reducers/empresasReducer.js:1-18 | the same five cases for the company list |
| EmpresasReducer.RemoveExact | src/reducers/empresasReducer.js:8-9 | removal keeps exactly the companies with other ids, and is idempotent |
| LineItems.AgregarProducto | src/components/comprobante/ComprobanteModalForm.jsx:30-53 | a product already listed bumps its line (quantity + 1, subtotal recomputed) and keeps the length; a new one appends a line with quantity 1 and subtotal = unit price after the unchanged list |
| LineItems.EliminarItem | src/components/comprobante/ComprobanteModalForm.jsx:71-73 | the result drops exactly as many lines as carry the product, has no line of it, holds only lines of the list, and keeps every line of another product (in order, by `Collection.RemoveKeyAppend`) |
| LineItems.ActualizarCantidad | src/components/comprobante/ComprobanteModalForm.jsx:55-69 | a quantity of zero or less is exactly removal; otherwise the length stays and only that product's line gets the quantity and the matching subtotal |
| LineItems.Total | src/components/comprobante/ComprobanteModalForm.jsx:75-77 | the sum of subtotals with initial value 0; `TotalAppend` gives its fold laws and `TotalIsAmount` its value for consistent lines |
| LineItems.UniqueTail | src/components/comprobante/ComprobanteModalForm.jsx:31 | the tail of a list with one line per product has one line per product and no line of the head's product |
| LineItems.TotalIsAmount | src/components/comprobante/ComprobanteModalForm.jsx:75-77 | for consistent lines the sum of subtotals is the sum of quantity × unit price |
| LineItems.TotalAppend | src/components/comprobante/ComprobanteModalForm.jsx:75-77 | the total of no lines is 0, and appending a line adds its subtotal |
| LineItems.TotalMapOne | src/components/comprobante/ComprobanteModalForm.jsx:36-40 | rewriting the one line of a product changes the total by the change of that line's subtotal |
| LineItems.TotalRemoveOne | src/components/comprobante/ComprobanteModalForm.jsx:71-73 | removing a product's one line lowers the total by its subtotal |
| LineItems.MapKeepsUnique | src/components/comprobante/ComprobanteModalForm.jsx:36-40 | a rewrite that keeps product ids keeps one line per product |
| LineItems.AgregarProductoPreserves | src/components/comprobante/ComprobanteModalForm.jsx:30-53 | adding keeps one line per product, consistent subtotals and quantities of at least 1 |
| LineItems.AgregarExistenteIsBump | src/components/comprobante/ComprobanteModalForm.jsx:31-41 | adding a listed product is the rewrite of its line by one more unit |
| LineItems.BumpedSubtotal | src/components/comprobante/ComprobanteModalForm.jsx:38 | one more unit raises a consistent line's subtotal by its unit price |
| LineItems.AgregarProductoTotal | src/components/comprobante/ComprobanteModalForm.jsx:31-41 | adding a listed product raises the total by its unit price |
| LineItems.AgregarNuevoTotal | src/components/comprobante/ComprobanteModalForm.jsx:42-51 | adding a new product raises the total by its unit price |
| LineItems.ActualizarCantidadPreserves | src/components/comprobante/ComprobanteModalForm.jsx:55-69 | setting a quantity keeps the list invariants |
| LineItems.ActualizarCantidadTotal | src/components/comprobante/ComprobanteModalForm.jsx:62-68 | setting a positive quantity replaces that line's subtotal in the total by quantity × unit price |
| LineItems.EliminarItemPreserves | src/components/comprobante/ComprobanteModalForm.jsx:71-73 | removal keeps the invariants, leaves the product absent, and removing again changes nothing |
| LineItems.RemovePreservesUnique | src/components/comprobante/ComprobanteModalForm.jsx:72 | filtering keeps one line per product |
| ReceiptForm.Submission | src/components/comprobante/ComprobanteModalForm.jsx:82-86 | the submitted receipt is the draft with the selected lines and the sum of their subtotals as total, which for well-formed lines is the sum of quantity × unit price |
| ReceiptForm.SubmissionPasses | src/components/comprobante/ComprobanteModalForm.jsx:79-89 | a submission passes validation exactly when the draft names a client and a document and some line is selected |
| ReceiptForm.SubmittedReceiptTotal | src/components/comprobante/ComprobanteModalForm.jsx:79-89 | a new receipt created from the form is appended with the selected lines and their amount as total |
| ReceiptForm.Form.constructor | src/components/comprobante/ComprobanteModalForm.jsx:14-15 | the form starts from the selected draft and its lines |
| ReceiptForm.Form.Sync | src/components/comprobante/ComprobanteModalForm.jsx:17-20 | a newly selected draft replaces the form and its lines |
| ReceiptForm.Form.AgregarProducto | src/components/comprobante/ComprobanteModalForm.jsx:30-53 | the lines become the add of the old lines, and well-formed lines stay well formed |
| ReceiptForm.Form.ActualizarCantidad | src/components/comprobante/ComprobanteModalForm.jsx:55-69 | the lines become the quantity update of the old lines, through removal when the quantity is not positive |
| ReceiptForm.Form.EliminarItem | src/components/comprobante/ComprobanteModalForm.jsx:71-73 | the lines become the old lines without that product, and well-formedness is kept |
| ReceiptForm.Form.CalcularTotal | src/components/comprobante/ComprobanteModalForm.jsx:75-77 | the sum of the held lines' subtotals, whatever they are; for well-formed lines the sum of quantity × unit price, and 0 for no lines |
| ReceiptForm.Form.OnSubmit | src/components/comprobante/ComprobanteModalForm.jsx:79-89 | the hook's collection becomes the submit of the completed draft; a rejection only sets the error map and leaves store, notices, log, draft and visibility alone; a success writes the store entry (or logs the failed write), shows the notice and closes the form with no errors; the company never changes |
| ReceiptManager.Created | src/hooks/useComprobantes.js:81-87 | the receipt a creation appends; its fields are stated by `SubmitCreates` |
| ReceiptManager.AfterSubmit | src/hooks/useComprobantes.js:64-106 | the collection after a submission; `SubmitRejected`, `SubmitCreates` and `SubmitUpdates` state its three cases |
| ReceiptManager.SubmitNotice | src/hooks/useComprobantes.js:92-105 | "Comprobante creado" with the type and number for a new receipt, "Comprobante actualizado" otherwise; `AddComprobante` shows it on every success |
| ReceiptManager.SubmitRejected | src/hooks/useComprobantes.js:66-73 | a draft that fails validation leaves the collection as it was |
| ReceiptManager.SubmitCreates | src/hooks/useComprobantes.js:79-90 | creation appends one receipt after the unchanged collection, with the fresh id, the company, the draft's or today's date, the draft's client, items and total, and the generated number |
| ReceiptManager.SubmitUpdates | src/hooks/useComprobantes.js:93-103 | update keeps the length and writes the stamped draft over exactly the entries with its id |
| ReceiptManager.ResubmitUnchanged | src/hooks/useComprobantes.js:93-103 | resubmitting a stored receipt unchanged, ids being unique, gives back the same collection |
| ReceiptManager.SubmitNeverAddsEmpty | src/hooks/useComprobantes.js:64-106 | every receipt after a submission was already held or has at least one item |
| ReceiptManager.CreateStep | src/hooks/useComprobantes.js:79-90 | creation appends the created receipt and raises only its type's count |
| ReceiptManager.TwoBoletas | src/hooks/useComprobantes.js:56-61 | two BOLETAs created in a row are B001-00001 and B001-00002 |
| ReceiptManager.ConsecutiveNumbers | src/hooks/useComprobantes.js:56-61 | after two BOLETAs a FACTURA starts its own count at F001-00001 |
| ReceiptManager.DropFirst | src/hooks/useComprobantes.js:131 | removing the first of two receipts keeps the second |
| ReceiptManager.CreateAfterOne | src/hooks/useComprobantes.js:79-90 | a BOLETA created beside a single BOLETA is B001-00002 |
| ReceiptManager.NumberReusedAfterRemoval | src/hooks/useComprobantes.js:56-61 | creating B1 and B2, removing B1 and creating again leaves two receipts both numbered B001-00002 |
| ReceiptManager.Manager.constructor | src/hooks/useComprobantes.js:16-30 | the initial state, then a load of the company's entry only for a truthy id |
| ReceiptManager.Manager.GetComprobantes | src/hooks/useComprobantes.js:33-44 | a missing entry loads [], a readable one loads its receipts, and an unreadable one is logged with the collection kept |
| ReceiptManager.Manager.SetEmpresa | src/hooks/useComprobantes.js:23-30 | the key follows the company; an unchanged or falsy id changes nothing else; a changed truthy id loads [] for a missing entry or the entry's receipts, and when the entry does not parse logs the error and keeps the previous company's receipts |
| ReceiptManager.Manager.SaveToLocalStorage | src/hooks/useComprobantes.js:47-53 | the company's entry becomes the data, or a failed write is logged with the store kept |
| ReceiptManager.Manager.AddComprobante | src/hooks/useComprobantes.js:64-117 | the collection becomes the submit of the draft; a rejection only sets the error map; a success also writes the collection to the company's entry, shows the notice with the number, and closes the form with no errors |
| ReceiptManager.Manager.Commit | src/hooks/useComprobantes.js:75-112 | the successful path: collection, store entry, log, notice and closed form |
| ReceiptManager.Manager.Finish | src/hooks/useComprobantes.js:109-112 | the new collection is written to the company's entry and the form closed with no errors |
| ReceiptManager.Manager.Dispatch | src/hooks/useComprobantes.js:79-106 | the reducer's new collection equals the one computed for the store, and the created or updated notice is shown |
| ReceiptManager.Manager.RemoveComprobante | src/hooks/useComprobantes.js:120-140 | a declined removal changes nothing; a confirmed one drops the id, rewrites the company's entry with the result and shows a notice |
| ReceiptManager.Manager.OpenForm | src/hooks/useComprobantes.js:143-149 | the draft becomes the blank form dated today and the form is shown |
| ReceiptManager.Manager.CloseForm | src/hooks/useComprobantes.js:151-155 | the form is hidden, the draft is the initial form (id 0, BOLETA, no items, total 0) and there are no errors |
| ReceiptManager.Manager.SelectForm | src/hooks/useComprobantes.js:157-160 | the draft becomes the given receipt unchanged and the form is shown |
| Productos.Complete | src/hooks/useProductos.js:37 | all four required fields truthy; `ProductErrorsEmptyIffComplete` ties it to the error map |
| Productos.ProductErrors | src/hooks/useProductos.js:38-43 | the error map has exactly the four keys, each with a message exactly when its field is falsy, a unit price of 0 or "" included |
| Productos.ProductErrorsEmptyIffComplete | src/hooks/useProductos.js:37-45 | the map holds no message exactly when all four fields are truthy |
| ProductManager.Route | src/hooks/useProductos.js:49-57 | a product with id 0 is sent with save, any other with update, for the given company |
| ProductManager.Stored | src/hooks/useProductos.js:49-57 | the stored product is added for a new product and written over its id otherwise |
| ProductManager.SavedNotice | src/hooks/useProductos.js:52-56 | "Producto creado" for a new product, "Producto actualizado" otherwise; `Manager.AddProducto` shows it on success |
| ProductManager.AfterAdd | src/hooks/useProductos.js:36-64 | the product list after a save; `AddAppends`, `UpdateReplaces` and `AddRejectedUnchanged` state its cases |
| ProductManager.AddAppends | src/hooks/useProductos.js:49-52 | saving a new product appends the stored one after the unchanged list |
| ProductManager.UpdateReplaces | src/hooks/useProductos.js:53-56 | updating keeps the length and replaces exactly the entries with the stored product's id |
| ProductManager.AddRejectedUnchanged | src/hooks/useProductos.js:36-64 | an incomplete product or a failed call leaves the list unchanged |
| ProductManager.Manager.constructor | src/hooks/useProductos.js:16-19 | no products, the initial selection, form hidden, no errors |
| ProductManager.Manager.GetProductos | src/hooks/useProductos.js:22-33 | a falsy company id makes no call; otherwise the reply is loaded, or the failure is logged with the list kept |
| ProductManager.Manager.AddProducto | src/hooks/useProductos.js:36-64 | an incomplete product only sets the error map and makes no call; a complete one is routed by id, and on success enters the list, shows the notice and closes the form with no errors, while a failure is logged and reported with the form kept |
| ProductManager.Manager.RemoveProducto | src/hooks/useProductos.js:66-87 | a declined removal changes nothing; a confirmed one calls the service and drops the id on success, or logs and reports the failure |
| ProductManager.Manager.OpenForm | src/hooks/useProductos.js:89 | the form is shown |
| ProductManager.Manager.CloseForm | src/hooks/useProductos.js:90-93 | the form is hidden and the selection is the initial product; the error map is kept |
| ProductManager.Manager.SelectForm | src/hooks/useProductos.js:95-98 | the selection is the given product and the form is shown |

## Left out

- JSON text is not modelled. The store holds parsed receipt lists, and a parse or write failure is a boolean input that is logged and swallowed.
- The clock (`Date.now()`, today's date) and the confirmation dialog are parameters. The uniqueness of the id a creation gets is therefore not modelled.
- Floating point is not modelled: prices, subtotals and totals are integer cents, and `parseFloat` / `parseInt` results arrive already parsed, so a `NaN` quantity is not represented.
- The company id is an integer in which 0 stands for every falsy value (0, `NaN`, `null`, `undefined`). The store key of a `NaN` or `undefined` company is therefore not distinguished from that of company 0.
- React scheduling is not modelled. Each handler is one atomic step, and stale closures between a dispatch and a later read are left out. The effect that resyncs the form is the explicit `Sync` method.
- The outer `try`/`catch` of `handlerAddComprobante` and `handlerRemoveComprobante` is left out: `saveToLocalStorage` already catches its own failures, and nothing else in those blocks can throw on well-typed data.
- `onInputChange` and the JSX of the form are left out. Field edits are whatever draft the form holds.
- The product service and its HTTP layer are outside the model. Each call is recorded as a `Request`, and its reply is an input.
- Notices keep only title, text and icon; the confirmation dialogs are not recorded as notices.
