# ERP front-end core in Dafny

This project models the business core of a small React ERP front-end.

The shared **data store** (`DataContext`) holds named collections of records. It offers:
- `addItem`, `updateItem`, `deleteItem` and `getItem`;
- a bill-of-materials cost roll-up;
- a `PREFIX-YEAR-NNN` document number generator;
- the payable-title generator (`createTitulosPagar`), which splits a purchase order into instalments.

The **procurement workflow** (`ComprasModule`) runs on the store:
- requisitions are created, then approved or rejected;
- a quotation can be made for an approved requisition that has no quotation yet, and making one marks the requisition `em-cotacao`;
- an order can be made for an approved quotation that has no order yet; placing it generates payable titles and marks the quotation `pedido-gerado`;
- receiving an order adds the quantities to product stock.

Two order forms validate their input before anything is saved: the order form (`PedidoModal`) and the requisition form (`RequisicaoModal`). Beside them sit the smaller screens' rules:
- status badges for procurement and shipments;
- stock classification and goods entry;
- the production-order state machine;
- the cash-flow window, grouping and balance;
- fuel consumption and meter update;
- net pay;
- shipment records.

## How the model is organised

- **Values.**
  - `js.dfy` gives JavaScript values a datatype (`Value`): undefined, null, booleans, numbers with `NaN` and `-Infinity`, strings, day numbers, objects and arrays.
  - Store records are `map<string, Value>`. This keeps a shallow merge exact, including keys such as `"aprovacao.status"`, which the store treats as plain top-level keys.
  - Money and quantities are `real`. Dates are whole day numbers, except on the finance screen, where they are instants on one time line.
  - The clock, the current year and fresh `Date.now()` ids are parameters. Where the code reads `Date.now()` twice for one record (the id and the code), the two readings are separate parameters.
- **Text and parsing.** `text.dfy` models the string helpers the code relies on: decimal rendering, `padStart`, `trim`, `split`/`join`, `parseInt` and `parseFloat`.
- **The store** is the class `DataContext.Store`, with two fields:
  - `data` is the latest state, the one functional updaters see;
  - `view` is the render-time snapshot that handlers read.

  `addItem` reads its id from `view` and appends to `data`. `Render` brings `view` up to date.
- **Instalments.** `installments.dfy` holds the pure plan behind `createTitulosPagar`. `Store.AddInstalments` is the `forEach` loop that calls `addItem` for each instalment.
- **Procurement.** Each handler of the workflow is a method on a `Store` (`compras.dfy`).
- **Forms.** The two forms are classes whose methods update `form`, `itens` and `errors`. Each validator is proved equal to a pure error-map function.
- **Smaller screens.** Each has typed records, and a class holding the collections its save handler reassigns.

## Model

| member | source | states |
|---|---|---|
| DataContext.MaxId | src/contexts/DataContext.jsx:984 | `Math.max` over the ids: NaN exactly when some id is NaN, -Infinity exactly when every id is -Infinity (so also for no records), otherwise the largest id, attained by a record |
| DataContext.NextId | src/contexts/DataContext.jsx:984 | new id: 1 for an absent collection, -Infinity for a present but empty one, NaN if an id is NaN; otherwise a number above every id and equal to some id plus one |
| DataContext.EmptiedCollectionRepeatsId | src/contexts/DataContext.jsx:984 | as written, two records added in turn to an emptied collection both get id -Infinity and so share an id |
| DataContext.NextIdFixed | src/contexts/DataContext.jsx:984 | intended id (max with 0, plus 1): at least 1 and above every numeric id present |
| DataContext.FixedIdsIncrease | src/contexts/DataContext.jsx:983-993 | with the intended id read from the latest state, adding a record strictly raises the next id, so ids never repeat |
| DataContext.MergeById | src/contexts/DataContext.jsx:995-1000 | shallow merge by strict id equality: same length; records with another id untouched; a matching record gets every update key and keeps its other keys |
| DataContext.RemoveById | src/contexts/DataContext.jsx:1002-1007 | filtering never lengthens the collection |
| DataContext.RemoveByIdMembers | src/contexts/DataContext.jsx:1002-1007 | a record survives the delete if and only if it was present and does not carry the id |
| DataContext.RemoveByIdAppend | src/contexts/DataContext.jsx:1002-1007 | the delete distributes over concatenation, so the survivors keep their relative order |
| DataContext.RemoveByIdAbsent | src/contexts/DataContext.jsx:1002-1007 | deleting an id no record carries leaves the collection equal to itself |
| DataContext.FirstMatch | src/contexts/DataContext.jsx:1010 | `find` position: within bounds, the record there matches, and no earlier record matches |
| DataContext.CountStatus | src/components/modules/ComprasModule.jsx:94 | a status filter count never exceeds the collection size |
| DataContext.CountNumbered | src/contexts/DataContext.jsx:1038 | the count of records whose `numero` mentions the year is at most the collection size |
| DataContext.GenerateNumber | src/contexts/DataContext.jsx:1035-1040 | the number is `PREFIX-YEAR-` followed by digits whose value is one more than the count of numbers mentioning the year, zero-padded to three digits and never truncated |
| DataContext.NumberMentionsYear | src/contexts/DataContext.jsx:1035-1040 | a generated number contains the year it was made for |
| DataContext.CountNumberedAppend | src/contexts/DataContext.jsx:1038 | adding a record whose number mentions the year raises that count by one |
| DataContext.NumberCountedNext | src/contexts/DataContext.jsx:1035-1040 | a record saved with a generated number counts towards the next number for that year |
| DataContext.CalculateBomCost | src/contexts/DataContext.jsx:1022-1024 | a missing or non-array bill of materials, and an empty one, cost 0 |
| DataContext.BomTotalAppend | src/contexts/DataContext.jsx:1025-1031 | the `reduce` total is additive over concatenated component lists |
| DataContext.UnknownMaterialCostsNothing | src/contexts/DataContext.jsx:1026-1030 | a component whose raw material is not found adds nothing to the total |
| DataContext.BomTotalNonNegative | src/contexts/DataContext.jsx:1025-1031 | with non-negative costs and quantities the total is non-negative |
| DataContext.CollectionAppended | src/contexts/DataContext.jsx:987-990 | appending to one collection extends it by exactly the new records and leaves every other collection unchanged |
| DataContext.AppendedStep | src/contexts/DataContext.jsx:987-990 | two queued appends equal one append of both records in order |
| DataContext.Store.constructor | src/contexts/DataContext.jsx:980 | latest state and render snapshot both start at the initial data |
| DataContext.Store.Render | src/contexts/DataContext.jsx:987 | a re-render makes the snapshot the latest state and changes no data |
| DataContext.Store.AddItem | src/contexts/DataContext.jsx:983-993 | returns the item stamped with the snapshot's next id and appends exactly that record to the latest state; the snapshot is unchanged |
| DataContext.Store.AddItemLatest | src/contexts/DataContext.jsx:983-993 | the intended add: the id is read from the latest state with `NextIdFixed`, then the record is appended |
| DataContext.Store.UpdateItem | src/contexts/DataContext.jsx:995-1000 | the collection becomes its merge by id (absent becomes empty); nothing else changes |
| DataContext.Store.DeleteItem | src/contexts/DataContext.jsx:1002-1007 | the collection becomes its filtered copy (absent becomes empty); nothing else changes |
| DataContext.Store.GetItem | src/contexts/DataContext.jsx:1009-1011 | none exactly when no record in the snapshot has the id; otherwise the first record of the collection with that id |
| DataContext.Store.CreateTitulosPagar | src/contexts/DataContext.jsx:1043-1100 | completes exactly when every instalment term parses; the titles returned are the order's plan stamped with the snapshot's title id, and exactly those are appended to `titulosPagar` |
| DataContext.Store.AddInstalments | src/contexts/DataContext.jsx:1047-1075 | the `forEach` stops at the first unparsable term (a thrown `RangeError`); the titles added are the instalment plan, in order |
| DataContext.Store.AddInstalment | src/contexts/DataContext.jsx:1052-1074 | one loop step extends the stamped titles by the next planned instalment and appends it |
| DataContext.StampedTitles | src/contexts/DataContext.jsx:1056-1074 | one title per planned instalment |
| DataContext.StampedTitlesStep | src/contexts/DataContext.jsx:1052-1074 | stamping one more planned instalment appends one title |
| DataContext.StampedTitlesShareId | src/contexts/DataContext.jsx:1074 | as written, every title of one order carries the same id |
| Installments.Parcelas | src/contexts/DataContext.jsx:1049 | one parsed day count per `/`-separated piece, at least one |
| Installments.ParsedPrefix | src/contexts/DataContext.jsx:1049-1054 | the day counts read before the first unparsable piece, which stops the loop |
| Installments.Instalments | src/contexts/DataContext.jsx:1047-1075 | the plan is full exactly when every piece parses; instalment k is due at issue plus its days, labelled `k/N`, and gets total/N except the last, which gets the remainder |
| Installments.InstalmentsAt | src/contexts/DataContext.jsx:1052-1072 | when the pieces up to k parse, the plan's k-th entry is that instalment |
| Installments.InstalmentsLength | src/contexts/DataContext.jsx:1052 | the plan's length is the index of the first unparsable piece |
| Installments.Plan | src/contexts/DataContext.jsx:1047-1097 | terms without `/` give a single `1/1` title for the full value, due after the digits of the terms read as days (or 0) |
| Installments.SumOfEqualShares | src/contexts/DataContext.jsx:1062-1066 | equal shares sum to the share times their count |
| Installments.InstalmentsSumToTotal | src/contexts/DataContext.jsx:1062-1066 | when every piece parses, the instalment values sum exactly to the order total |
| Installments.PlanSumsToTotal | src/contexts/DataContext.jsx:1047-1097 | for complete terms, split or cash, the titles sum exactly to the order total |
| Installments.DayPieces | src/contexts/DataContext.jsx:1049 | one text piece per day count |
| Installments.PieceDaysDec | src/contexts/DataContext.jsx:1049 | a piece written `N` or `N dias` parses back to N |
| Installments.TermsTextPlan | src/contexts/DataContext.jsx:1047-1075 | terms written as `d1/d2/... dias` are complete and plan one instalment per day count, due at issue plus that count |
| Installments.CashTermsDays | src/contexts/DataContext.jsx:1078 | cash terms with one number among non-digits are due after that many days |
| Installments.DefaultTermsDays | src/contexts/DataContext.jsx:1044 | the default `30 dias` is cash terms due in 30 days |
| Installments.CashDiscountTermsDays | src/contexts/DataContext.jsx:1078 | `À vista com 5% desconto` is read as due in 5 days |
| Text.PadStart3Value | src/contexts/DataContext.jsx:1039 | padding to three digits keeps the digits' value |
| Text.SplitJoin | src/contexts/DataContext.jsx:1049 | splitting joined pieces that lack the separator gives the pieces back |
| Text.TrimEmptyIffBlank | src/components/modules/compras/PedidoModal.jsx:114 | trimming gives the empty string exactly for a blank string |
| Text.ParseIntDec | src/components/modules/compras/PedidoModal.jsx:127-128 | `parseInt` of a decimal numeral, followed by a non-digit, reads the numeral's value |
| Text.ParseFloatDec | src/components/modules/compras/RequisicaoModal.jsx:127 | `parseFloat` of a decimal numeral reads its value |
| ComprasUtils.StatusBadge | src/components/modules/compras/utils.js:4-15 | the map is total; `aprovada`/`recebido` give approved, `rejeitada` rejected, `em-cotacao`/`enviado` completed, and exactly every other value pending (each an if and only if) |
| ComprasUtils.PrioridadeBadge | src/components/modules/compras/utils.js:17-24 | `alta` gives rejected, `baixa` completed, and exactly every other value (`media` included) pending |
| Compras.AnyRefersAppend | src/components/modules/ComprasModule.jsx:183 | once a record referring to an id is added, the collection refers to it |
| Compras.EligibleRequisicoes | src/components/modules/ComprasModule.jsx:541-543 | the list the quotation form offers holds exactly the `aprovada` requisitions that no quotation refers to |
| Compras.EligibleCotacoes | src/components/modules/ComprasModule.jsx:558-560 | the list the order form offers holds exactly the quotations whose nested approval is `aprovada` and that no order refers to |
| Compras.CountApprovalStatus | src/components/modules/ComprasModule.jsx:95 | counting nested approval statuses never exceeds the collection size |
| Compras.Stats | src/components/modules/ComprasModule.jsx:91-99 | the total is the requisition count; approved requisitions are the requisitions with status "aprovada", at most the total; pending quotations are those whose approval is "pendente", at most the quotation count; the order value is the sum of the order totals |
| Compras.SumValorTotalAppend | src/components/modules/ComprasModule.jsx:96 | a new order adds its total to the orders' value |
| Compras.NewRequisicao | src/components/modules/ComprasModule.jsx:129-141 | a new requisition has its number, status `pendente`, a pending approval with null approver and date, and every other form field |
| Compras.NewCotacao | src/components/modules/ComprasModule.jsx:221-234 | a new quotation has its number, status `pendente`, a pending approval sent today, and every other form field |
| Compras.NewPedido | src/components/modules/ComprasModule.jsx:320-333 | a new order has its number, status `enviado`, today's issue date, a pending receipt with no lines received, and every other form field |
| Compras.UpdateOnlyChanged | src/contexts/DataContext.jsx:996-999 | replacing one collection changes only that collection |
| Compras.AppendedOnlyChanged | src/contexts/DataContext.jsx:987-990 | appending to one collection changes only that collection |
| Compras.SaveRequisicao | src/components/modules/ComprasModule.jsx:122-150 | editing merges the form into that requisition; otherwise exactly one new pending requisition with a `REQ` number and the snapshot's id is appended |
| Compras.AprovarRequisicao | src/components/modules/ComprasModule.jsx:152-164 | only the requisitions with that id receive the approval update; every other record and collection is unchanged |
| Compras.RejeitarRequisicao | src/components/modules/ComprasModule.jsx:166-178 | only the requisitions with that id receive the rejection update |
| Compras.ApprovedRequisicaoQuotable | src/components/modules/ComprasModule.jsx:152-164 | after approval the requisition is `aprovada`, keeps its approval object, and is offered for a quotation when none refers to it |
| Compras.AnyRefersSameId | src/components/modules/ComprasModule.jsx:183 | strictly equal ids are referred to by the same records |
| Compras.NovaCotacao | src/components/modules/ComprasModule.jsx:181-196 | the quotation form opens exactly when some requisition is eligible; the store is not touched |
| Compras.SaveCotacao | src/components/modules/ComprasModule.jsx:214-248 | editing merges the form; otherwise exactly one new pending quotation is appended, its requisition becomes `em-cotacao`, and no other collection changes |
| Compras.AddCotacao | src/components/modules/ComprasModule.jsx:235-238 | appends the stamped quotation and marks the requisition `em-cotacao`, changing only those two collections |
| Compras.SavedCotacaoClosesRequisicao | src/components/modules/ComprasModule.jsx:235-238 | after the save, that requisition is no longer offered for a quotation |
| Compras.AprovarCotacao | src/components/modules/ComprasModule.jsx:250-261 | only the quotations with that id receive the approval update as written, dotted keys included |
| Compras.RejeitarCotacao | src/components/modules/ComprasModule.jsx:263-274 | only the quotations with that id receive the rejection update as written |
| Compras.MergeKeepsApprovals | src/components/modules/ComprasModule.jsx:251-256 | an update without an `aprovacao` key leaves every nested approval status as it was |
| Compras.ApprovedCotacaoNeverOrderable | src/components/modules/ComprasModule.jsx:250-256 | as written, an approved quotation keeps nested status `pendente`, is never offered for an order, and still counts as pending |
| Compras.NestedApprovalMakesOrderable | src/components/modules/ComprasModule.jsx:250-256 | writing the nested approval makes the quotation `aprovada` there, and it is offered for an order when no order refers to it |
| Compras.AprovarCotacaoNested | src/components/modules/ComprasModule.jsx:250-256 | the corrected handler merges the nested approval into the quotation with that id |
| Compras.NovoPedido | src/components/modules/ComprasModule.jsx:277-292 | the order form opens exactly when some quotation is eligible; the store is not touched |
| Compras.StampedPedido | src/components/modules/ComprasModule.jsx:320-335 | the stamped new order is readable by the title generator |
| Compras.SavePedido | src/components/modules/ComprasModule.jsx:310-351 | editing merges the form; otherwise the new order is appended; with a supplier its titles are generated and, if the terms are complete, the quotation becomes `pedido-gerado`; without a supplier nothing else happens |
| Compras.SaveNewPedido | src/components/modules/ComprasModule.jsx:317-341 | the new-order branch places the order stamped from the form |
| Compras.PlaceOrder | src/components/modules/ComprasModule.jsx:335-341 | appends the order, bills it through the supplier, and changes only orders, titles and quotations |
| Compras.BillOrder | src/components/modules/ComprasModule.jsx:338-341 | appends exactly the order's stamped titles; the quotation becomes `pedido-gerado` if and only if the terms are complete, otherwise quotations are unchanged |
| Compras.SavedPedidoClosesCotacao | src/components/modules/ComprasModule.jsx:335-341 | after the order is saved, no quotation with its id is offered for an order |
| Compras.ApplyReceipt | src/components/modules/ComprasModule.jsx:366-373 | the receipt loop keeps the product list's length and every product's id |
| Compras.ReceiptLastLine | src/components/modules/ComprasModule.jsx:366-373 | as written, a product with a numeric id ends at its on-screen stock plus the quantity of the last line naming it; with no such line, or when the product is not on screen, its record is unchanged |
| Compras.ReceiptSkipsUnknown | src/components/modules/ComprasModule.jsx:367-368 | lines whose product is not on screen leave the product list unchanged |
| Compras.ReceiptDistinctLines | src/components/modules/ComprasModule.jsx:366-373 | with an up-to-date screen and no two lines naming one product, every named product ends at its old stock plus its line's quantity |
| Compras.ReceberPedido | src/components/modules/ComprasModule.jsx:353-379 | an unknown order changes nothing; otherwise the order gets the receipt update, the products get the receipt loop's result, and nothing else changes |
| Compras.ReceiveLines | src/components/modules/ComprasModule.jsx:366-373 | the loop leaves products equal to the receipt applied to the snapshot, changing only products |
| Compras.ReceiptKeepsOnlyLastLine | src/components/modules/ComprasModule.jsx:366-373 | as written, two lines for one product leave snapshot stock plus only the second quantity, so a non-zero first quantity is lost |
| Compras.SecondMergeWins | src/contexts/DataContext.jsx:998 | merging twice into a record, the second merge's value of a field wins |
| Compras.ApplyReceiptLatest | src/components/modules/ComprasModule.jsx:366-373 | the corrected loop reads the latest stock; it keeps length, ids and numeric stocks |
| Compras.LatestReceiptAddsEveryLine | src/components/modules/ComprasModule.jsx:366-373 | corrected: a product ends at its old stock plus the quantities of every line naming it |
| Compras.LatestReceiptStep | src/components/modules/ComprasModule.jsx:367-372 | one corrected loop step adds the line's quantity to its product only |
| Compras.DeleteRequisicao | src/components/modules/ComprasModule.jsx:112-120 | a confirmed delete filters the requisitions by id; a declined one changes nothing |
| Compras.DeleteCotacao | src/components/modules/ComprasModule.jsx:204-212 | a confirmed delete filters the quotations by id; a declined one changes nothing |
| Compras.DeletePedido | src/components/modules/ComprasModule.jsx:300-308 | a confirmed delete filters the orders by id; a declined one changes nothing |
| PedidoModal.Trunc | src/components/modules/compras/PedidoModal.jsx:127-128 | truncation toward zero: the result is within one of the number, below it for positives and above it for negatives, and whole numbers are kept |
| PedidoModal.ParseIntValue | src/components/modules/compras/PedidoModal.jsx:77 | `Number.parseInt` yields an integer or NaN; whole numbers are kept; a string gives a number exactly when it parses |
| PedidoModal.Parsed | src/components/modules/compras/PedidoModal.jsx:85 | a parse result is a number exactly when the parse succeeded |
| PedidoModal.FindOffer | src/components/modules/compras/PedidoModal.jsx:79 | the offer found is the first that belongs to the selected supplier; none exactly when no offer does |
| PedidoModal.OfferFields | src/components/modules/compras/PedidoModal.jsx:79-92 | copies supplier and total; terms, freight, items and lead time come from the matching offer, with defaults `30 dias`, 0, empty and 15 days |
| PedidoModal.EditForm | src/components/modules/compras/PedidoModal.jsx:27-36 | editing prefill: each form key takes the order's value when truthy, else the initial default |
| PedidoModal.CotacaoError | src/components/modules/compras/PedidoModal.jsx:99-101 | an error exactly when no quotation is chosen |
| PedidoModal.PrevisaoError | src/components/modules/compras/PedidoModal.jsx:103-112 | an error exactly when the forecast date is missing or before today |
| PedidoModal.CondicoesError | src/components/modules/compras/PedidoModal.jsx:114-116 | an error exactly when the payment terms are blank after trimming |
| PedidoModal.PedidoErrors | src/components/modules/compras/PedidoModal.jsx:96-120 | the error map has exactly the keys whose check fails |
| PedidoModal.SubmittedPedido | src/components/modules/compras/PedidoModal.jsx:125-130 | the saved order has the form's fields, with the ids read by `parseInt` |
| PedidoModal.ValidPedidoForm | src/components/modules/compras/PedidoModal.jsx:96-120 | an empty error map means a quotation is chosen, the forecast is today or later, and the terms contain a non-space |
| PedidoModal.PedidoForm.constructor | src/components/modules/compras/PedidoModal.jsx:12-23 | the form starts at its defaults with no errors |
| PedidoModal.PedidoForm.Prefill | src/components/modules/compras/PedidoModal.jsx:25-67 | an edited order fills the form; otherwise a selected quotation fills it from its offer; otherwise defaults; errors cleared |
| PedidoModal.PedidoForm.InputChange | src/components/modules/compras/PedidoModal.jsx:69-74 | sets the field, and clears only that field's error |
| PedidoModal.PedidoForm.CotacaoChange | src/components/modules/compras/PedidoModal.jsx:76-94 | a known quotation fills the form from its offer; an unknown one leaves the form unchanged |
| PedidoModal.PedidoForm.Validate | src/components/modules/compras/PedidoModal.jsx:96-120 | errors become the error map of the form; valid exactly when it is empty |
| PedidoModal.PedidoForm.Submit | src/components/modules/compras/PedidoModal.jsx:122-133 | saves exactly when valid, and then saves the submitted order |
| RequisicaoModal.ItemKey | src/components/modules/compras/RequisicaoModal.jsx:105 | item error keys are non-empty and start with `i` |
| RequisicaoModal.ItemKeyInjective | src/components/modules/compras/RequisicaoModal.jsx:105-111 | different items or fields never share an error key |
| RequisicaoModal.ParseFloatValue | src/components/modules/compras/RequisicaoModal.jsx:107 | `parseFloat` gives a number or NaN; numbers are kept; a string gives a number exactly when it parses |
| RequisicaoModal.SolicitanteError | src/components/modules/compras/RequisicaoModal.jsx:84-86 | an error exactly when the requester is blank after trimming |
| RequisicaoModal.DepartamentoError | src/components/modules/compras/RequisicaoModal.jsx:88-90 | an error exactly when the department is blank after trimming |
| RequisicaoModal.NecessidadeError | src/components/modules/compras/RequisicaoModal.jsx:92-101 | an error exactly when the need date is missing or before today |
| RequisicaoModal.HeaderErrors | src/components/modules/compras/RequisicaoModal.jsx:84-101 | header error keys are exactly the failing header checks |
| RequisicaoModal.ProdutoError | src/components/modules/compras/RequisicaoModal.jsx:104-106 | an error exactly when the item has no product |
| RequisicaoModal.QuantidadeError | src/components/modules/compras/RequisicaoModal.jsx:107-109 | an error exactly when the quantity is missing or parses to at most zero |
| RequisicaoModal.JustificativaError | src/components/modules/compras/RequisicaoModal.jsx:110-112 | an error exactly when the justification is blank |
| RequisicaoModal.WithItemErrorsEmpty | src/components/modules/compras/RequisicaoModal.jsx:103-113 | one item's checks leave the map empty exactly when it was empty and the item is valid |
| RequisicaoModal.WithItemsErrorsEmpty | src/components/modules/compras/RequisicaoModal.jsx:103-113 | the item loop leaves the map empty exactly when it was empty and every item is valid |
| RequisicaoModal.ItemsValidSplit | src/components/modules/compras/RequisicaoModal.jsx:103 | all items are valid exactly when the prefix and the last one are |
| RequisicaoModal.RequisicaoValidIff | src/components/modules/compras/RequisicaoModal.jsx:81-117 | the form is valid exactly when every header check passes and every item is valid |
| RequisicaoModal.WithItemErrorsKeys | src/components/modules/compras/RequisicaoModal.jsx:103-113 | one item's checks add only that item's keys |
| RequisicaoModal.WithItemsErrorsKeeps | src/components/modules/compras/RequisicaoModal.jsx:81-113 | the item loop keeps every header error |
| RequisicaoModal.WithItemsErrorsOnlyItemKeys | src/components/modules/compras/RequisicaoModal.jsx:103-113 | the item loop adds only keys of existing items |
| RequisicaoModal.WithItemsErrorsItemKey | src/components/modules/compras/RequisicaoModal.jsx:103-113 | key `item_i_field` is present exactly when that field of item i fails |
| RequisicaoModal.RequisicaoErrorsKeys | src/components/modules/compras/RequisicaoModal.jsx:81-117 | the error map's keys are exactly the failing header fields and failing item fields |
| RequisicaoModal.ItemAdded | src/components/modules/compras/RequisicaoModal.jsx:65-70 | adding appends one blank item and keeps the others |
| RequisicaoModal.ItemRemoved | src/components/modules/compras/RequisicaoModal.jsx:72-79 | removal drops exactly that item when more than one remains, else changes nothing; a non-empty list stays non-empty |
| RequisicaoModal.ItemChanged | src/components/modules/compras/RequisicaoModal.jsx:55-63 | only that field of that item changes |
| RequisicaoModal.EditForm | src/components/modules/compras/RequisicaoModal.jsx:23-34 | editing prefill: each key takes the requisition's value when truthy, else the default |
| RequisicaoModal.EditItems | src/components/modules/compras/RequisicaoModal.jsx:32 | the requisition's items, or one blank item when it has none |
| RequisicaoModal.SubmittedItem | src/components/modules/compras/RequisicaoModal.jsx:127 | a saved item keeps its fields, and its quantity becomes a number |
| RequisicaoModal.SubmittedRequisicao | src/components/modules/compras/RequisicaoModal.jsx:122-129 | the saved requisition has the form fields and one converted item per item |
| RequisicaoModal.ValidRequisicaoSaved | src/components/modules/compras/RequisicaoModal.jsx:119-131 | a valid form saves items whose quantities are positive numbers or NaN |
| RequisicaoModal.RequisicaoForm.constructor | src/components/modules/compras/RequisicaoModal.jsx:12-21 | starts at the defaults with one blank item and no errors |
| RequisicaoModal.RequisicaoForm.Prefill | src/components/modules/compras/RequisicaoModal.jsx:23-46 | editing fills form and items from the requisition; a new form gets requester "João Silva", department "Produção", priority "media", an empty need-by date and one blank item; errors cleared |
| RequisicaoModal.RequisicaoForm.InputChange | src/components/modules/compras/RequisicaoModal.jsx:48-53 | sets one header field and clears only its error |
| RequisicaoModal.RequisicaoForm.ItemChange | src/components/modules/compras/RequisicaoModal.jsx:55-63 | changes one item field and clears only its error key |
| RequisicaoModal.RequisicaoForm.AddItem | src/components/modules/compras/RequisicaoModal.jsx:65-70 | appends one blank item |
| RequisicaoModal.RequisicaoForm.RemoveItem | src/components/modules/compras/RequisicaoModal.jsx:72-79 | removes the item unless it is the last |
| RequisicaoModal.RequisicaoForm.Validate | src/components/modules/compras/RequisicaoModal.jsx:81-117 | errors become the error map of form and items; valid exactly when it is empty |
| RequisicaoModal.RequisicaoForm.Submit | src/components/modules/compras/RequisicaoModal.jsx:119-132 | saves exactly when valid, then the submitted requisition |
| RequisicaoModal.HeaderChecks | src/components/modules/compras/RequisicaoModal.jsx:84-101 | the header checks, done in turn, build the header error map |
| RequisicaoModal.CollectErrors | src/components/modules/compras/RequisicaoModal.jsx:81-116 | the whole `validateForm` loop builds the error map |
| RequisicaoModal.AddItemErrors | src/components/modules/compras/RequisicaoModal.jsx:103-113 | one iteration of the item loop adds that item's errors |
| Estoque.Classify | src/components/modules/EstoqueModule.jsx:63-64 | `baixo` exactly at or below the minimum; `alto` exactly above the minimum when the product has a maximum and is at or above it; `normal` otherwise, so a product without a maximum is never `alto` |
| Estoque.ClassifyMonotone | src/components/modules/EstoqueModule.jsx:63-64 | low stock stays low when the quantity falls; high stock stays high when it rises |
| Estoque.FindPosicao | src/components/modules/EstoqueModule.jsx:55 | the stock entry found is the first for that product; none exactly when no entry is |
| Estoque.RowOf | src/components/modules/EstoqueModule.jsx:54-66 | quantity and location come from the product's entry, else 0 and `Não definida`; status is the classification |
| Estoque.Rows | src/components/modules/EstoqueModule.jsx:50-67 | one row per product, in order |
| Estoque.CountStatus | src/components/modules/EstoqueModule.jsx:80 | a status count is at most the row count |
| Estoque.NoMaximumNeverAlto | src/components/modules/EstoqueModule.jsx:77-84 | when no product has `estoqueMax`, as none of the seeded products does, the high count is 0 |
| Estoque.CountStatusPartition | src/components/modules/EstoqueModule.jsx:77-84 | the three status counts add up to the row count |
| Estoque.SumValueNonNegative | src/components/modules/EstoqueModule.jsx:81 | with non-negative quantities and costs the stock value is non-negative |
| Estoque.EstoqueStats | src/components/modules/EstoqueModule.jsx:77-84 | total is the row count; low plus high is at most the total; value is the sum of quantity times cost |
| Estoque.Alerts | src/components/modules/EstoqueModule.jsx:205 | the alerts are exactly the `baixo` rows |
| Estoque.SubmitEntrada | src/components/modules/EstoqueModule.jsx:380-389 | submits exactly when product, quantity and date are filled |
| Estoque.SubmittedProductId | src/components/modules/EstoqueModule.jsx:385 | a product chosen by its decimal id is submitted with that id |
| Estoque.FindProduto | src/components/modules/EstoqueModule.jsx:121 | the position found is the first product with the id; none exactly when no product has it |
| Estoque.EntradaMovimento | src/components/modules/EstoqueModule.jsx:127-136 | the movement is an `entrada` of the quantity for that product |
| Estoque.EstoqueData.constructor | src/components/modules/EstoqueModule.jsx:118 | the screen starts with the given collections |
| Estoque.EstoqueData.SalvarEntrada | src/components/modules/EstoqueModule.jsx:118-146 | a known product's stock becomes old (or 0) plus the quantity and one movement is appended; an unknown product changes nothing |
| Estoque.EntradaLeavesPosition | src/components/modules/EstoqueModule.jsx:50-67 | the position rows read the `estoque` entries, so an entry does not change them |
| Producao.Actions | src/components/modules/ProducaoModule.jsx:104-105 | start is offered exactly for `planejada`; pause and conclude exactly for `em-andamento` |
| Producao.OfferedRunsAreShort | src/components/modules/ProducaoModule.jsx:104-105 | following only offered actions, a run has at most two steps; a two-step run starts from `planejada` with start; every run ends running, paused or concluded |
| Producao.UpdateSetsStatus | src/components/modules/ProducaoModule.jsx:163-165 | the order with that id gets the new status; its other fields stay, except the conclusion date |
| Producao.IniciarOP | src/components/modules/ProducaoModule.jsx:163 | merges status `em-andamento` into the order |
| Producao.PausarOP | src/components/modules/ProducaoModule.jsx:164 | merges status `pausada` into the order |
| Producao.ConcluirOP | src/components/modules/ProducaoModule.jsx:165 | merges status `concluida` and today's date into the order |
| Producao.ProdutoNome | src/components/modules/ProducaoModule.jsx:125 | the product's description, or `Produto não encontrado`; always truthy |
| Producao.ProdutoCodigo | src/components/modules/ProducaoModule.jsx:126 | the product's code, or `-`; always truthy |
| Producao.OrdensComProdutos | src/components/modules/ProducaoModule.jsx:121-127 | one row per order, carrying that order's product name and code |
| Producao.Progress | src/components/modules/ProducaoModule.jsx:86 | between 0 and 100 when produced is within the quantity; above 100 when overproduced |
| Producao.BarWidth | src/components/modules/ProducaoModule.jsx:95 | the bar is capped at 100 and otherwise equals the progress |
| Producao.LateAreRunning | src/components/modules/ProducaoModule.jsx:142 | late orders are running orders |
| Producao.ProducaoStats | src/components/modules/ProducaoModule.jsx:136-144 | late is at most running, which is at most total |
| Financeiro.StatusBadge | src/components/modules/FinanceiroModule.jsx:44-50 | `pago`/`recebido` approved, `vencido` rejected, exactly every other value pending |
| Financeiro.TotalAppend | src/components/modules/FinanceiroModule.jsx:264 | the sum of values is additive over concatenation |
| Financeiro.WithStatus | src/components/modules/FinanceiroModule.jsx:264 | exactly the titles with that status |
| Financeiro.SettledInMonth | src/components/modules/FinanceiroModule.jsx:258-261 | exactly the titles with that status settled within the month |
| Financeiro.FinanceiroStats | src/components/modules/FinanceiroModule.jsx:253-269 | pending totals and this month's settled totals, per kind |
| Financeiro.PendingTitleAdds | src/components/modules/FinanceiroModule.jsx:253-269 | a new pending title raises the pending total by its value and leaves the settled totals |
| Financeiro.Window | src/components/modules/FinanceiroModule.jsx:98-106 | exactly the titles due within the period |
| Financeiro.SumDueAbsent | src/components/modules/FinanceiroModule.jsx:108-121 | a date no title is due on sums to zero |
| Financeiro.SumDueAppend | src/components/modules/FinanceiroModule.jsx:111-121 | a title adds its value to its due date's sum only |
| Financeiro.RowFor | src/components/modules/FinanceiroModule.jsx:113 | a date gets a zero row only when it has none, recorded in order |
| Financeiro.AddPagamento | src/components/modules/FinanceiroModule.jsx:111-115 | one payable step keeps every row equal to the sums per date |
| Financeiro.AddRecebimento | src/components/modules/FinanceiroModule.jsx:117-121 | one receivable step keeps every row equal to the sums per date |
| Financeiro.GroupByDate | src/components/modules/FinanceiroModule.jsx:108-121 | one row per due date, whose payments and receipts are the sums over titles due that day |
| Financeiro.Insert | src/components/modules/FinanceiroModule.jsx:123 | insertion keeps increasing order and adds exactly the row |
| Financeiro.SortByDate | src/components/modules/FinanceiroModule.jsx:123 | the rows in increasing date, same rows, same count |
| Financeiro.RowsInOrder | src/components/modules/FinanceiroModule.jsx:123 | `Object.values` lists the rows in insertion order |
| Financeiro.GroupedRows | src/components/modules/FinanceiroModule.jsx:108-123 | every row holds its date's sums, and the row dates are exactly the due dates |
| Financeiro.DuesInPeriod | src/components/modules/FinanceiroModule.jsx:98-106 | windowed due dates lie in the period |
| Financeiro.FluxoData | src/components/modules/FinanceiroModule.jsx:94-123 | rows sorted by date, within the period, one per due date in the window, each with that day's sums |
| Financeiro.SaldoIsDifference | src/components/modules/FinanceiroModule.jsx:126-132 | the balance is receipts total minus payments total |
| Financeiro.SubmitLancamento | src/components/modules/FinanceiroModule.jsx:384-392 | submits exactly when description, value and due date are filled |
| Financeiro.SubmittedValue | src/components/modules/FinanceiroModule.jsx:389 | a decimal value is submitted as that number |
| Financeiro.NovoTitulo | src/components/modules/FinanceiroModule.jsx:340-363 | a new title is `pendente`, unsettled, with the entered value and fields |
| Financeiro.Titulos.constructor | src/components/modules/FinanceiroModule.jsx:245 | the screen starts with the given titles |
| Financeiro.Titulos.Lancar | src/components/modules/FinanceiroModule.jsx:339-364 | the new title is appended to payables or receivables by kind; the other list is unchanged |
| Financeiro.LancarFigures | src/components/modules/FinanceiroModule.jsx:339-364 | a new entry raises exactly its kind's pending total by its value |
| Abastecimento.FindEquipamento | src/components/modules/AbastecimentoModule.jsx:143 | the position found holds that equipment; none exactly when no equipment has the id |
| Abastecimento.LinhaOf | src/components/modules/AbastecimentoModule.jsx:141-150 | the row shows the equipment's name and meter unit, or the fallbacks; never empty |
| Abastecimento.Linhas | src/components/modules/AbastecimentoModule.jsx:141-150 | one row per refuel, in order |
| Abastecimento.TotalConsumoBounds | src/components/modules/AbastecimentoModule.jsx:168 | consumptions within bounds sum within count times the bounds |
| Abastecimento.AbastecimentoStats | src/components/modules/AbastecimentoModule.jsx:164-172 | counts, total litres, and average consumption (0 with no records, else the sum over the count) |
| Abastecimento.ConsumoMedioBounds | src/components/modules/AbastecimentoModule.jsx:168-170 | the average lies within the per-record bounds |
| Abastecimento.TotalLitrosAppend | src/components/modules/AbastecimentoModule.jsx:167 | a refuel adds its litres to the total |
| Abastecimento.SubmitEquipamento | src/components/modules/AbastecimentoModule.jsx:361-368 | submits exactly when name and meter are filled |
| Abastecimento.SubmitAbastecimento | src/components/modules/AbastecimentoModule.jsx:369-377 | submits exactly when equipment, litres and meter are filled |
| Abastecimento.SubmittedEquipamentoId | src/components/modules/AbastecimentoModule.jsx:373 | equipment chosen by decimal id is submitted with that id |
| Abastecimento.Codigo | src/components/modules/AbastecimentoModule.jsx:211 | `EQ` followed by the last (up to three) digits of the timestamp |
| Abastecimento.NovoEquipamento | src/components/modules/AbastecimentoModule.jsx:209-217 | the new equipment has the entered fields, id from one clock reading and code from a second, and average 0 when none given |
| Abastecimento.MedidorAnterior | src/components/modules/AbastecimentoModule.jsx:226-227 | the equipment's current meter, or 0 for unknown equipment |
| Abastecimento.Consumo | src/components/modules/AbastecimentoModule.jsx:228 | 0 when the meter did not advance, else litres over the advance; never negative for non-negative litres |
| Abastecimento.NovoRegistro | src/components/modules/AbastecimentoModule.jsx:230-238 | the record holds the previous meter and the consumption computed from it |
| Abastecimento.Frota.constructor | src/components/modules/AbastecimentoModule.jsx:136 | the screen starts with the given collections |
| Abastecimento.Frota.SalvarEquipamento | src/components/modules/AbastecimentoModule.jsx:207-225 | appends the new equipment only |
| Abastecimento.Frota.SalvarAbastecimento | src/components/modules/AbastecimentoModule.jsx:226-246 | appends the refuel and, for known equipment, sets its current meter to the new reading |
| Abastecimento.RefuelsChain | src/components/modules/AbastecimentoModule.jsx:226-245 | the next refuel's previous meter is this refuel's reading |
| RH.FindFuncionario | src/components/modules/RHModule.jsx:133 | the position found holds that employee; none exactly when no employee has the id |
| RH.LinhaOf | src/components/modules/RHModule.jsx:131-136 | the payment row shows the employee's name and role, or the fallbacks; never empty |
| RH.OrZero | src/components/modules/RHModule.jsx:197-200 | a missing part counts as 0 |
| RH.SalarioLiquidoMonotone | src/components/modules/RHModule.jsx:197 | more overtime or benefits, or fewer deductions, never lower net pay |
| RH.CountAtivos | src/components/modules/RHModule.jsx:143 | active employees are at most all employees |
| RH.FolhaDecomposes | src/components/modules/RHModule.jsx:144 | payroll equals base plus extras minus deductions summed |
| RH.RHStats | src/components/modules/RHModule.jsx:141-147 | active at most total; payroll the sum of net pay; average 0 with no employees, else the sum over the count |
| RH.SubmitFuncionario | src/components/modules/RHModule.jsx:307-313 | submits exactly when name, role and salary are filled |
| RH.ParseOptional | src/components/modules/RHModule.jsx:320-322 | a blank field reads 0, else its parse |
| RH.SubmitPagamento | src/components/modules/RHModule.jsx:314-325 | submits exactly when employee, month and base salary are filled |
| RH.Codigo | src/components/modules/RHModule.jsx:173 | `FUNC` followed by the last (up to three) digits of the timestamp |
| RH.NovoFuncionario | src/components/modules/RHModule.jsx:171-183 | a new employee is `ativo` with the entered fields, id from one clock reading and code from a second |
| RH.NovoPagamento | src/components/modules/RHModule.jsx:191-202 | a new payment is `pendente`, missing parts count 0, and net pay is consistent |
| RH.BaseOnlyPaysBase | src/components/modules/RHModule.jsx:197-200 | with no extras entered, net pay is the base salary |
| RH.Pessoal.constructor | src/components/modules/RHModule.jsx:126 | the screen starts with the given collections, consistent payments |
| RH.Pessoal.FolhaPagamento | src/components/modules/RHModule.jsx:144 | payroll decomposes into base, extras and deductions |
| RH.Pessoal.SalvarFuncionario | src/components/modules/RHModule.jsx:170-189 | appends the new employee only |
| RH.Pessoal.SalvarPagamento | src/components/modules/RHModule.jsx:190-208 | appends the new payment only, keeping payments consistent |
| RH.FolhaAppend | src/components/modules/RHModule.jsx:144 | a payment adds its net pay to the payroll |
| RH.NovoFuncionarioAtivo | src/components/modules/RHModule.jsx:180 | a new employee raises the active count by one |
| Logistica.StatusBadge | src/components/modules/LogisticaModule.jsx:44-52 | `em-transito` completed, `entregue` approved, `cancelado` rejected, exactly every other value pending |
| Logistica.NomeOf | src/components/modules/LogisticaModule.jsx:131-132 | the party's name when the id is known, else the fallback; never empty |
| Logistica.RomaneiosComDados | src/components/modules/LogisticaModule.jsx:126-134 | one row per shipment with client and carrier names |
| Logistica.CountStatus | src/components/modules/LogisticaModule.jsx:145 | a status count is at most the shipment count |
| Logistica.CountTwoStatuses | src/components/modules/LogisticaModule.jsx:145-146 | two different statuses together count at most the shipments |
| Logistica.LogisticaStats | src/components/modules/LogisticaModule.jsx:142-150 | in transit plus delivered is at most total; freight total is the sum |
| Logistica.NovoForm | src/components/modules/LogisticaModule.jsx:269-279 | a blank form is dated today with `CIF` freight |
| Logistica.DecimalOrZero | src/components/modules/LogisticaModule.jsx:289-290 | blank reads 0, else its parse |
| Logistica.IntegerOrOne | src/components/modules/LogisticaModule.jsx:291 | blank reads 1, else its parse |
| Logistica.SubmitRomaneio | src/components/modules/LogisticaModule.jsx:281-295 | submits exactly when client, carrier and forecast are filled |
| Logistica.DefaultsOfBlankForm | src/components/modules/LogisticaModule.jsx:284-292 | a blank form submits freight 0, weight 0 and one volume |
| Logistica.Numero | src/components/modules/LogisticaModule.jsx:178 | `ROM` followed by the last (up to four) digits of the timestamp |
| Logistica.NovoRomaneio | src/components/modules/LogisticaModule.jsx:176-190 | a new shipment is `preparacao` with no delivery date and the entered fields, id from one clock reading and number from a second |
| Logistica.Romaneios.constructor | src/components/modules/LogisticaModule.jsx:126 | the screen starts with the given shipments |
| Logistica.Romaneios.Salvar | src/components/modules/LogisticaModule.jsx:175-199 | appends the new shipment |
| Logistica.NovoRomaneioStats | src/components/modules/LogisticaModule.jsx:142-150 | a new shipment raises the total by one and the freight total by its freight |

## Left out

- Rendering, search filters, spreadsheet export, toasts and animation are not modelled; the screens' state changes are. `searchItems` (src/contexts/DataContext.jsx:1013-1020) is search and is left out.
- `window.confirm` is a boolean parameter of the delete handlers.
- The clock is a parameter: `now`, `today` and the year are passed in. Dates are whole day numbers, except in `Financeiro`, where they are instants. Time zones and `setDate` month rollover are not modelled.
- Financeiro.GroupByDate: groups titles by due instant. The screen groups by the `dataVencimento` string, so two different strings for one instant would give two rows there and one row here.
- Js.ToNumber: reads every string and array as `NaN`, where JavaScript reads numeric text such as "12" as 12. Only the id maximum uses it, and the ids `addItem` stamps are numbers.
- Floating-point rounding is not modelled: money and quantities are exact `real`s, so instalment shares and consumption ratios carry no IEEE drift.
- `parseInt` and `parseFloat` handle signs, decimal digits, leading spaces and the `0x` prefix. Exponents and the word `Infinity` are not modelled.
- JavaScript `+` on non-numbers (string concatenation, `NaN`) is excluded by preconditions that require numbers.
- The badge tables' inherited `Object.prototype` keys (`"constructor"` and the like) are not modelled.
- Where the code would throw a `TypeError` on malformed data, the model has either a precondition or an explicit outcome. Examples are a quotation without an `aprovacao` object and a missing supplier when an order is saved.
- Producao.Progress: requires a non-zero planned quantity; the division by zero is not modelled.
- Estoque.EstoqueData.SalvarEntrada: requires a parsed quantity. The in-place update of the product object shared with the screen's other views is modelled as a sequence update, so aliasing is not captured.
- RequisicaoModal.RequisicaoForm.InputChange: requires a header field. The items list is edited only through its own handlers.
- RequisicaoModal.ValidRequisicaoSaved: a quantity that parses to NaN passes validation. The contract allows NaN rather than promising a positive number.
- Financeiro.Titulos.Lancar: requires a parsed value. The month for the stats is given as a day range.
- Abastecimento.Frota.SalvarEquipamento: requires a parsed meter reading. The screen's section switch is modelled as two methods.
- Abastecimento.Frota.SalvarAbastecimento: requires parsed litres and meter reading.
- RH.Pessoal.SalvarFuncionario: requires a parsed salary. The section switch is modelled as two methods.
- RH.Pessoal.SalvarPagamento: requires a parsed base salary.
- Logistica.Romaneios.Salvar: requires a parsed freight value.
- Production order creation (src/components/modules/ProducaoModule.jsx:162) only shows a notice and is not modelled.
- CotacaoModal, PedidosTab and the authentication context are not part of this model.

## Findings

| source | as written | input that shows it | evidently intended | confidence | as-written member | corrected member |
|---|---|---|---|---|---|---|
| src/contexts/DataContext.jsx:984 | every instalment title of one order gets the same id, because `addItem` reads the id from the render-time snapshot | supplier terms `30/60/90 dias`: three titles, all with the same id | distinct, increasing ids per title | not executed | DataContext.StampedTitlesShareId | DataContext.FixedIdsIncrease |
| src/contexts/DataContext.jsx:984 | a present but empty collection gets id `-Infinity`, and so does every record added after it | delete every quotation, then add two | ids restart at 1 and keep increasing | not executed | DataContext.EmptiedCollectionRepeatsId | DataContext.NextIdFixed |
| src/components/modules/ComprasModule.jsx:251-256 | approval writes a top-level key `"aprovacao.status"`; the nested `aprovacao.status` stays `pendente` | approve any pending quotation, then start an order | the approved quotation is offered for an order | not executed | Compras.ApprovedCotacaoNeverOrderable | Compras.NestedApprovalMakesOrderable |
| src/components/modules/ComprasModule.jsx:366-373 | each line sets stock to snapshot stock plus its quantity, so with two lines for one product the first is lost | an order with lines of 5 and 3 units of one product at stock 10 ends at 13 | stock ends at 18 | not executed | Compras.ReceiptKeepsOnlyLastLine | Compras.LatestReceiptAddsEveryLine |
