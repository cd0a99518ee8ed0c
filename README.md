# ERP core model in Dafny

This project models the bookkeeping core of a Django ERP for a small manufacturer, and
proves properties of it. The core covers:

- **Inventory.** The `ProductInventory` table holds one row per (product, warehouse)
  pair. The model includes the endpoint that moves stock between warehouses and the
  serializer check in front of it.
- **Orders.** Purchase and sales line totals, and the total that the sales-order form
  accumulates.
- **Production records.** Manufacturing-order status codes, units completed, shift
  length and maintenance downtime.
- **Post-save hooks.** Quality-inspector permissions, the per-SKU manufacturing workflow
  and its four assembly steps, and the status emails.
- **Periodic tasks.** The low-stock alert decision and the replacement of the
  currency-rate table.
- **Idle-timeout middleware.**
- **Seeding helpers.** Order numbers, invoice numbers, the `random_date` guard and the
  delivery-date clamp.

How the model is represented:

- **Tables.** A table is a sequence of rows, or a class field holding one.
  `unique_together` and the non-negative quantity column are predicates over it.
- **Decimals.** Decimal amounts are `real`.
- **Times.** Times of day and datetimes are whole seconds; the session timestamp is in
  microseconds.
- **The move endpoint.** `Views.Move` specifies the endpoint as a function on a snapshot
  of the warehouses, products and inventory rows. `Views.InventoryDb.Post` performs the
  same checks and writes in place, and is proved to end in the state `Move` describes.
  The properties of the endpoint are lemmas about `Move`.
- **The workflow and hooks.** The workflow (`Ra84672.Run`), the registry call
  (`ManufacturingWorkflows.Apply`) and the hooks (`Signals`) are module-level methods that
  update the objects they are given: an order, the step table, a user, the mail queue.
  The currency table and the middleware are classes with methods. Each method is tied
  to a function of its inputs. The status-email hook is modelled as written, comparing
  with "CANCELED"; the corrected decision is a separate function. The
  order save is modelled as `Signals.OrderSaved`, which runs both hooks. The workflow
  saves the order again at its end; the model includes that nested save, which runs the
  hooks with `created = False`.

## Model

| member | source | states |
|---|---|---|
| `InventoryModels.FindRow` | erp/models.py:54-65 | The lookup of a (product, warehouse) row returns a row with that key, and returns nothing exactly when no row has that key. |
| `InventoryModels.FindRowUnique` | erp/models.py:64-65 | With unique keys, every row is the one its own key finds, so the table is a map keyed by the pair. |
| `InventoryModels.ProductTotal` | erp/models.py:50-52 | `get_total_quantity` is 0 for a product without rows and non-negative when all quantities are. |
| `InventoryModels.ProductTotalUpdate` | erp/models.py:50-52 | Changing one row's quantity shifts its own product's total by the difference and no other product's total. |
| `InventoryModels.ProductTotalAppend` | erp/models.py:50-52 | A new row adds its quantity to its own product's total only. |
| `InventoryModels.WarehouseTotal` | erp/serializers.py:152-153 | The per-warehouse sum is 0 without rows and non-negative when all quantities are. |
| `InventoryModels.WarehouseTotalUpdate` | erp/serializers.py:152-153 | Changing one row's quantity shifts its own warehouse's sum by the difference and no other warehouse's sum. |
| `InventoryModels.WarehouseTotalAppend` | erp/serializers.py:152-153 | A new row adds its quantity to its own warehouse's sum only. |
| `OrderModels.PurchaseLineTotal` | erp/models.py:163-164 | A purchase line costs nothing exactly when it has no units or no price, and a line at a non-negative price costs nothing negative. |
| `OrderModels.SalesLineTotal` | erp/models.py:247-248 | A sales line total is zero exactly when it has no units, no price or a 100% discount. |
| `OrderModels.ItemsTotal` | erp/views.py:247-256 | The total of no lines is 0, and for lines with discounts between 0% and 100% and non-negative prices it lies between 0 and the undiscounted sum. |
| `OrderModels.SalesLineTotalDiscountEnds` | erp/models.py:247-248 | A 0% discount gives quantity times price; a 100% discount gives 0. |
| `OrderModels.SalesLineTotalBounds` | erp/models.py:247-248 | For a discount between 0 and 100 and a non-negative price, the line total lies between 0 and the undiscounted amount. |
| `OrderModels.FormTermIsLineTotal` | erp/views.py:249-256 | The form's per-item term `q*p*(100-d)/100` equals the model's `line_total`. |
| `OrderModels.ItemsTotalConcat` | erp/views.py:244-256 | The total over two lists of lines is the sum of their totals. |
| `Serializers.Validate` | erp/serializers.py:29-34 | Validation fails exactly when the two warehouses are equal, with the fixed message; otherwise it returns its input unchanged. |
| `Serializers.ValidateIgnoresProductAndQuantity` | erp/serializers.py:27-34 | Whether validation passes does not depend on the product or the quantity, so zero and negative quantities pass. |
| `Serializers.GetTotalProductQuantity` | erp/serializers.py:152-153 | As written, the method computes the aggregate but returns nothing, so the field is always null. |
| `Serializers.GetTotalProductQuantityIntended` | erp/serializers.py:152-153 | The evidently intended field is null exactly when the warehouse has no rows; otherwise it is the warehouse's sum, non-negative. |
| `Serializers.TotalProductQuantityIsAlwaysNull` | erp/serializers.py:152-153 | As written, the field is null even for a warehouse with stock rows, and so differs from the intended sum. |
| `Views.GetOrCreate` | erp/views.py:99-103 | `get_or_create` returns a row of the requested pair. When the pair has a row, that row is returned and the table and next id are unchanged. Otherwise a row of the pair at quantity 0 with the next id is appended and returned, and the next id advances. |
| `Views.Move` | erp/views.py:59-113 | A refused request leaves the whole state unchanged. Every request keeps the warehouses and products and adds at most one inventory row. |
| `Views.MoveOutcomes` | erp/views.py:59-97 | Each refusal is stated with its condition and response, in the endpoint's order: same warehouse 400, unknown warehouse 404 (checked before the product), unknown product 404, no source row 404, too little stock 400. A move succeeds exactly when none applies, and a refused move leaves the state unchanged. |
| `Views.FindRowSameKeys` | erp/views.py:81-84 | Lookups depend only on keys, so changing quantities does not change which row a lookup finds. |
| `Views.FindRowAppend` | erp/views.py:99-103 | After a row is appended, a lookup finds the new row for its own key and the old result for every other key. |
| `Views.MoveSteps` | erp/views.py:96-105 | In a successful move, the source row is drained by `quantity` and the destination row (appended with the next id when missing) is filled by `quantity`. No other row changes, and the response carries the destination's id. |
| `Views.MoveTransfersQuantity` | erp/views.py:96-113 | After a move, the stock at the source is lower by exactly `quantity` and at the destination higher by exactly `quantity`. The source row stays even at 0. A created destination's id is the next row id. |
| `Views.MoveFrame` | erp/views.py:80-113 | Every row of another pair is unchanged. Ids and keys of existing rows are kept. Warehouses and products are untouched. At most one row is added. |
| `Views.StepProductTotals` | erp/views.py:96-105 | Draining or filling a row lowers or raises its product's total by the quantity moved. |
| `Views.StepWarehouseTotals` | erp/views.py:96-105 | Draining or filling a row lowers or raises its warehouse's sum by the quantity moved. |
| `Views.PlacementTotals` | erp/views.py:99-103 | Creating the destination row at 0 changes no total. |
| `Views.TransferTotals` | erp/views.py:96-105 | The write part keeps every product's total, and shifts `quantity` from the source warehouse's sum to the destination's. |
| `Views.MoveConservesProductTotals` | erp/views.py:96-105 | No move, successful or refused, changes any product's total across warehouses. |
| `Views.MoveShiftsWarehouseTotals` | erp/views.py:96-105 | A successful move lowers the source warehouse's sum by `quantity`, raises the destination's by it, and leaves all other warehouses alone. |
| `Views.MovePreservesWellFormed` | erp/models.py:64-65 | A move keeps keys unique and ids distinct and below the next id, and rows keep referring to existing warehouses and products. |
| `Views.MoveNonNegativeIff` | erp/views.py:91-105 | After a successful move on non-negative stock, all quantities are non-negative exactly when the destination's old stock plus `quantity` is. |
| `Views.MoveKeepsNonNegative` | erp/models.py:58 | With a non-negative `quantity`, every move keeps all quantities non-negative. |
| `Views.NegativeQuantityMovesStockBackwards` | erp/views.py:91-105 | A request to move -5 units from warehouse 1 (0 in stock) to warehouse 2 (10 in stock) passes every check and moves 5 units from 2 to 1. |
| `Views.InventoryDb.Post` | erp/views.py:59-113 | The in-place endpoint returns the response and reaches the state that `Move` gives for the old state, and it keeps the table well formed. |
| `Views.InventoryDb.Write` | erp/views.py:96-105 | The in-place decrement, `get_or_create` and increment end in the state `Transfer` describes. |
| `Views.SalesOrderFormTotal` | erp/views.py:239-270 | With a valid formset, the accumulated total is the sum of the items' line totals. An invalid formset re-renders the page. |
| `Views.SalesOrderFormExample` | erp/test/test_views.py:58 | The test's two lines total `10*20*(100-10)/100 + 5*50*(100-5)/100`. |
| `ProductionModels.ParseStatus` | erp/models.py:350-359 | Reading back a status code gives the status with that code, and every status code is recognised. |
| `ProductionModels.StatusCodesDistinct` | erp/models.py:350-359 | The eight status codes are pairwise different. |
| `ProductionModels.CanceledIsNotAStatus` | erp/models.py:358 | The cancelled status is spelled "CANCELLED"; "CANCELED" is not a status code. |
| `ProductionModels.UnitsCompleted` | erp/models.py:386-388 | An order without logs has 0 units completed. |
| `ProductionModels.UnitsCompletedConcat` | erp/models.py:386-388 | Units completed over two batches of logs add up. |
| `ProductionModels.UnitsCompletedBounds` | erp/models.py:386-388 | Each log's units are part of the total; defective units do not count. |
| `ProductionModels.GetSalesOrder` | erp/models.py:390-394 | The result is None exactly when no sales order line is linked; otherwise it is that line's sales order. |
| `ProductionModels.ShiftElapsed` | erp/models.py:513-518 | The elapsed time of a shift lies in [0, 24h). |
| `ProductionModels.ShiftElapsedIsModular` | erp/models.py:516-518 | Adding a day to an end before the start gives `(end - start) mod 24h`, and plain `end - start` otherwise. |
| `ProductionModels.ShiftHours` | erp/models.py:513-520 | Shift hours times 3600 equal the elapsed seconds less the break. |
| `ProductionModels.EqualTimesGiveMinusBreak` | erp/models.py:516-520 | Equal start and end times give minus the break, not 24 hours. |
| `ProductionModels.NightShiftExample` | erp/models.py:513-520 | 22:00 to 06:00 with a 30-minute break is 7.5 hours. |
| `ProductionModels.DowntimeHours` | erp/models.py:575-579 | Downtime is None exactly when there is no end; otherwise, times 3600, it is end minus start in seconds. |
| `Ra84672.FirstReady` | erp/manufacturing_workflows/ra_84672.py:19-30 | Finds the first ready-for-production workstation with the given name, or none exactly when there is no such workstation. |
| `Ra84672.FromList` | erp/manufacturing_workflows/ra_84672.py:32-56 | One pending step per input, in order, each referencing the order. |
| `Ra84672.PlannedStepsShape` | erp/manufacturing_workflows/ra_84672.py:32-56 | Exactly four steps are created: Frame, Wheel, Seat and Handlebars Assembly in that order. Each has its fixed description, is pending, references the order, and is at the first ready workstation of its name (or at none). |
| `Ra84672.Run` | erp/manufacturing_workflows/ra_84672.py:15-63 | The workflow appends exactly the planned steps to the step table and sets the order's status to PLANNED. Its frame lets it change no other order field. |
| `ManufacturingWorkflows.RegistryContents` | erp/manufacturing_workflows/__init__.py:7-9 | The registry has exactly one key, "RA-84672", which maps to the ra_84672 workflow. |
| `ManufacturingWorkflows.Lookup` | erp/manufacturing_workflows/__init__.py:7-9 | A SKU finds a workflow exactly when it is "RA-84672". |
| `ManufacturingWorkflows.Apply` | erp/manufacturing_workflows/__init__.py:8 | Applying the registered workflow has the effect of `ra_84672`. |
| `Signals.PermissionsToGrant` | erp/signals.py:22-42 | The quality-inspector enum member gets the four quality-check permissions; any other role value gets none. |
| `Signals.QualityCheckPermissionsCount` | erp/signals.py:24-41 | The four codenames are four distinct permissions. |
| `Signals.TextRoleGetsNothing` | erp/signals.py:22 | A role held as a plain string never equals the enum member, so it is granted nothing. |
| `Signals.UserSetPermissions` | erp/signals.py:16-46 | Only creations grant. A dangling user is logged and left alone. A null user with the inspector role raises an uncaught AttributeError. A linked user gains exactly the role's permissions and keeps the ones it had. |
| `Signals.StatusEmailAsWritten` | erp/signals.py:76-93 | As written, an email is only ever decided for an update. |
| `Signals.StatusEmail` | erp/signals.py:76-93 | Corrected decision, with the cancel branch reading "CANCELLED": an email is only ever decided for an update. |
| `Signals.AsWrittenCancelledSendsNothing` | erp/signals.py:88-91 | As written, only COMPLETED among all statuses gets an email. A cancelled order gets none, where the corrected decision sends the cancel email. |
| `Signals.StatusEmailCases` | erp/signals.py:81-93 | Corrected decision, not the code as written: an update sends one email exactly for COMPLETED or CANCELLED, and creations send none. Each email has its own subject and a body naming the order. |
| `Signals.SendOrderStatusEmail` | erp/signals.py:66-73 | The email is queued once; a failure to queue is swallowed, leaving the queue as it was. |
| `Signals.SendEmailWhenCompletedOrCancelled` | erp/signals.py:76-93 | As written: the queue gains exactly the email of the as-written decision, unless queueing fails. So COMPLETED queues the completed email, the literal "CANCELED" queues the cancel email, and "CANCELLED" queues nothing. |
| `Signals.WorkflowToRun` | erp/signals.py:54-60 | A workflow runs exactly for a newly created READY order whose SKU is registered. |
| `Signals.OrderSaved` | erp/signals.py:49-63 | When a workflow runs, it runs once: the steps are appended and the order becomes PLANNED. Otherwise steps and status are unchanged. Creations queue no email. Updates queue the email of the as-written decision, so a cancelled order queues none. |
| `Signals.WorkflowSaveIsInert` | erp/manufacturing_workflows/ra_84672.py:61-62 | The workflow's closing save (an update, PLANNED) starts no workflow and sends no email, so the hooks do not recurse. |
| `Tasks.LowStock` | erp/tasks_functions.py:18-24 | There are at most as many low-stock lines as products. |
| `Tasks.LowStockMembership` | erp/tasks_functions.py:18-24 | A line is reported exactly when it is the line of a product that has rows and whose total is strictly below its minimum. |
| `Tasks.LowStockBoundaries` | erp/tasks_functions.py:18-24 | Stock at the minimum is not low, and a product without rows is never reported. |
| `Tasks.LineTexts` | erp/tasks_functions.py:39-42 | There is one body line per low product, each giving name, total and minimum. |
| `Tasks.JoinLines` | erp/tasks_functions.py:39-42 | Joining no parts gives the empty string. Otherwise the result starts with the first part and ends with the last, with a newline before the last when there are several. |
| `Tasks.JoinLinesAppend` | erp/tasks_functions.py:39-42 | Joining one more line appends a newline and the line. |
| `Tasks.AlertBody` | erp/tasks_functions.py:39-44 | The body starts with the header and ends with the line of the last low product. |
| `Tasks.StockAlertDecision` | erp/tasks_functions.py:14-60 | The three outcomes: no low product; low products but no team lead; otherwise one email to all team leads with the fixed subject and sender and one line per low product. |
| `Tasks.StockAlertExample` | erp/test/test_tasks.py:101-112 | With the test's two products, one email is sent, listing only "Product 2 (Stock: 2, Min: 5)". |
| `Tasks.StockAboveMinimumExample` | erp/test/test_tasks.py:88-99 | With both products above their minimum, the task returns the all-above message. |
| `Tasks.CurrencyTable.ReplaceAll` | erp/tasks_functions.py:68-75 | After the update the table holds exactly the given rates: one row per code, with that code's rate, as many rows as rates, and none of the old rows. |
| `Tasks.CurrencyExample` | erp/test/test_tasks.py:47-58 | The test's three-rate payload leaves three rows, with EUR at 0.96146. |
| `IdleTimeout.Decide` | erp_system/middleware/idle_timeout.py:19-38 | Anonymous requests pass through. A session expires exactly when its stamp is strictly before now minus the timeout. A value that raises is logged. |
| `IdleTimeout.BoundaryIsNotExpired` | erp_system/middleware/idle_timeout.py:29 | A touch exactly at the cutoff is refreshed, not expired, and so is a missing one. |
| `IdleTimeout.ExpiryIsMonotone` | erp_system/middleware/idle_timeout.py:29 | An expired session stays expired at every later time. |
| `IdleTimeout.RefreshKeepsSessionAlive` | erp_system/middleware/idle_timeout.py:27-34 | After a refresh, a request within the timeout refreshes again, and one later than the timeout logs out. |
| `IdleTimeout.IdleTimeoutMiddleware.constructor` | erp_system/middleware/idle_timeout.py:15-17 | The timeout is the setting, or 15 minutes when the setting is absent. |
| `IdleTimeout.IdleTimeoutMiddleware.Call` | erp_system/middleware/idle_timeout.py:19-38 | An expired session is flushed and redirected to /logout/. A refresh stores now. An anonymous request, or one whose entry raised, leaves the session as it was; every case other than expiry is handled downstream. |
| `Populate.Format06d` | erp/management/commands/populate.py:103 | The `06d` form has at least 6 characters. It reads back as the number: all digits when non-negative, and a minus sign then the digits when negative. |
| `Populate.OrderNumber` | erp/management/commands/populate.py:101-103 | An order number is the prefix, a dash and at least six more characters. |
| `Populate.OrderNumberRoundTrip` | erp/management/commands/populate.py:101-103 | The characters after the prefix and dash are digits that read back as the id. |
| `Populate.SixDigits` | erp/management/commands/populate.py:103 | Ids below one million take exactly six digits. |
| `Populate.OrderNumberInjective` | erp/management/commands/populate.py:101-103 | Under one prefix, different ids give different order numbers. |
| `Populate.InvoiceNumber` | erp/management/commands/populate.py:727 | An invoice number starts with "INV-" and is one character longer than an order number of 3 or more characters. |
| `Populate.InvoiceNumberOfOrder` | erp/management/commands/populate.py:727 | For a two-letter prefix, the invoice number is the order number under the prefix "INV". |
| `Populate.InvoiceNumberExample` | erp/management/commands/populate.py:727 | "SO-000042" becomes "INV-000042". |
| `Populate.RandomDate` | erp/management/commands/populate.py:67-74 | The start is returned unchanged when start >= end. A range shorter than a day fails, as randrange(0) does. Otherwise the result is a whole number of days after the start and before the end. |
| `Populate.RandomDateCoversRange` | erp/management/commands/populate.py:71-74 | Every whole day in the range can be drawn. |
| `Populate.ClampToCurrent` | erp/management/commands/populate.py:523-524 | A clamped delivery date never exceeds the current date, and is the date itself when it does not. |

## Left out

- Database querying, locking and transactions (`select_for_update`, `transaction.atomic`). Each operation is one atomic step on in-memory tables.
- The database CHECK constraint behind the non-negative quantity column. The model lets a move break non-negativity and states exactly when it does, instead of modelling the database's rejection.
- `Views.Move`: the width of the quantity column. Quantities are unbounded integers. On the database, a saved quantity outside the column's range raises an error and rolls the transaction back, which is a server error. A destination near 2^31 or a very large negative `quantity` would do this, and the model reports success instead.
- Parsing of the request fields by the serializer's IntegerFields. A request is four integers, and a field that fails to parse is not modelled.
- Decimal precision, `quantize` and float division. Amounts and hours are exact `real`.
- The order of the rows that grouped and currency queries return. Low-stock lines follow the product table, and the currency rates are a map.
- The remaining fields of the records, and `ManufacturingStep.sequence`. `from_list` is not shown, so its numbering of steps is not modelled.
- `Ra84672.FromList`: `ManufacturingStep.from_list` is not part of this model. The model assumes it makes one step per input, in input order, for the given order, at the status column's default "PENDING". This is what erp/test/test_manufacturing_workflows.py:77-118 expects of the workflow. The four-step shape (`Ra84672.PlannedStepsShape`, `Ra84672.Run`) rests on that assumption.
- `Workstation.objects.ready_for_production`, which is not shown. It is modelled as a ready flag per workstation. The workstations are taken in ascending id order, the order `first()` uses on an unordered queryset.
- `Permission.DoesNotExist`. The four permissions are assumed to exist.
- The team-lead query. The addresses are a parameter, so it is not modelled how a stored role compares with `EmployeeRole.TEAM_LEAD`.
- Fetching the exchange rates over HTTP, `send_mail`, logging, the Celery task wrappers and their retries. Rates and team-lead addresses are parameters, and the alert email is returned as a value.
- `Views.SalesOrderFormTotal`: blank extra forms. The formset has two extra forms (erp/forms.py:5-7). An untouched extra form is valid with empty `cleaned_data`, and reading its quantity raises KeyError. The model's forms are all filled in, so that error path is not modelled.
- `Signals.StatusEmailCases`: states the corrected decision. As written (erp/signals.py:88), a CANCELLED update sends no email; `Signals.StatusEmailAsWritten` and `Signals.AsWrittenCancelledSendsNothing` state that behaviour, and the hook methods follow it.
- Redirects, template rendering and saving the sales order and its items in `form_valid`. Only the accumulated total is modelled, not its storage on the form.
- `Signals.SendOrderStatusEmail`: a failing enqueue is a boolean parameter, because the broker is not modelled.
- The `create_*` seeding loops, `weighted_choice`, `random_decimal` and the randomness in `random_date`. The drawn day is a parameter.
- Calendar dates. A date is a whole number of seconds, and a date-only `random_date` is the case where both ends fall on whole days.
- Invoice PDF rendering, the performance middleware, the URL routers, settings and the unregistered invoice hook.
- `ManufacturingWorkflows.Apply`: the string a workflow function is typed to return is not modelled, because `ra_84672` returns nothing.

## Findings

| source | as written | input that shows it | evidently intended | confidence | as-written member | corrected member |
|---|---|---|---|---|---|---|
| erp/signals.py:88 | The cancel branch compares the status with "CANCELED". | An existing order saved with status "CANCELLED", the code of its Cancelled choice at erp/models.py:358. | Send the "Manufacturing Order Canceled" email for a cancelled order. | high, not executed | `Signals.AsWrittenCancelledSendsNothing` | `Signals.StatusEmail` |
| erp/serializers.py:152-153 | `get_total_product_quantity` computes the aggregate but does not return it. | Any warehouse with an inventory row, e.g. one row of quantity 10: the field is null. | Return the summed quantity, which is null only for a warehouse without rows. | high, not executed | `Serializers.TotalProductQuantityIsAlwaysNull` | `Serializers.GetTotalProductQuantityIntended` |
