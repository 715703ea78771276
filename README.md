# SmartShop inventory core in Dafny

SmartShop is an Android inventory app. A shop keeper keeps a list of products
(name, quantity, unit price, timestamps); the list lives in a local table and
each change is pushed to a cloud copy. The app can search the list, answer
questions in a small keyword-driven assistant chat, and export the inventory
as CSV, a tab-separated sheet, a plain-text report or JSON.

This project models that core and proves properties of it:

- `domain.dfy` holds the product and its stored entity, the mappings between
  them and the stock value (price × quantity).
- `dao.dfy` holds the in-memory table (`ProductDaoImpl`). It is a class whose
  `products` sequence each method reassigns. Every method is proved against a
  function of the old table: `FindById`, `UpdateFirst`, `RemoveAllById`,
  `Unsynced` and `TotalStockValue`.
- `repository.dfy` holds `ProductRepository`: the write path through the DAO
  and the cloud. The cloud's answer for each write is an input (`Remote`).
  The sync-all loop is proved against `AfterSyncAll`. A set of lemmas says
  which records end up synced, and shows that distinct ids stay distinct.
- `product_ui.dfy` holds `ProductViewModel`: form validation, the form and
  list state machines, and edit/save.
- `search.dfy` holds the search screen's filter.
- `chat.dfy` holds the assistant's reply table and `ChatViewModel`.
- `export.dfy` holds the four exporters. Each one builds its content line by
  line in a loop, proved against a function listing the lines. It also holds
  `String.times` and the mime type chosen for sharing.
- `text.dfy`, `seqs.dfy` and `wrappers.dfy` hold the Kotlin standard-library
  pieces these need: trimming, ASCII lower-casing, `contains`, `replace`,
  `repeat`, `Int.toString`, `toIntOrNull` and `filter`.

The clock, random UUIDs and the cloud's replies are parameters. The same goes
for the formatting of prices and dates: `parsePrice`, `formatPrice` and
`Formats`.

## Model

| member | source | states |
|---|---|---|
| Text.IsWhitespace | app/src/main/java/com/islemriguen/smartshop/ui/viewmodel/ProductViewModel.kt:89-99 | Char.isWhitespace on ASCII: space, tab through carriage return and the four separators |
| Text.IsBlank | app/src/main/java/com/islemriguen/smartshop/ui/viewmodel/ProductViewModel.kt:89-99 | isBlank: every character is whitespace, the empty string included |
| Text.TrimStart | app/src/main/java/com/islemriguen/smartshop/ui/viewmodel/ChatViewModel.kt:47 | the leading part of trim: drops a blank prefix and leaves a suffix that does not start with whitespace |
| Text.TrimEnd | app/src/main/java/com/islemriguen/smartshop/ui/viewmodel/ChatViewModel.kt:47 | the trailing part of trim: drops a blank suffix and leaves a prefix that does not end with whitespace |
| Text.Trim | app/src/main/java/com/islemriguen/smartshop/ui/viewmodel/ChatViewModel.kt:47 | trim: the string without its leading and trailing whitespace |
| Text.TrimEmptyIffBlank | app/src/main/java/com/islemriguen/smartshop/ui/viewmodel/ChatViewModel.kt:47-48 | trimming leaves nothing exactly when the input is blank, so sendMessage returns early exactly on blank input |
| Text.TrimIdempotent | app/src/main/java/com/islemriguen/smartshop/ui/viewmodel/ChatViewModel.kt:47 | trimming an already trimmed string changes nothing |
| Text.Lower | app/src/main/java/com/islemriguen/smartshop/ui/viewmodel/ChatViewModel.kt:75 | lowercase: same length, each character folded on its own |
| Text.Contains | app/src/main/java/com/islemriguen/smartshop/ui/screens/SearchScreens.kt:26 | contains: the pattern starts at some position of the string |
| Text.ContainsIff | app/src/main/java/com/islemriguen/smartshop/ui/screens/SearchScreens.kt:26 | contains holds exactly when some slice of the string equals the pattern |
| Text.ContainsEmpty | app/src/main/java/com/islemriguen/smartshop/ui/screens/SearchScreens.kt:26 | every string contains the empty pattern |
| Text.ContainsTrans | app/src/main/java/com/islemriguen/smartshop/ui/screens/SearchScreens.kt:26 | a string containing a text containing the pattern contains the pattern |
| Text.ContainsIgnoreCase | app/src/main/java/com/islemriguen/smartshop/ui/screens/SearchScreens.kt:26 | contains with ignoreCase: containment after folding both sides |
| Text.EndsWith | app/src/main/java/com/islemriguen/smartshop/utils/ExportUtils.kt:266-269 | endsWith: the string's last characters are the suffix |
| Text.Repeat | app/src/main/java/com/islemriguen/smartshop/utils/ExportUtils.kt:303-305 | repeat(n): n copies side by side, n times as long |
| Text.RepeatChar | app/src/main/java/com/islemriguen/smartshop/utils/ExportUtils.kt:303-305 | a one-character string repeated n times is n copies of that character |
| Text.ReplaceAll | app/src/main/java/com/islemriguen/smartshop/ui/viewmodel/ChatViewModel.kt:83 | replace: every non-overlapping occurrence, left to right, is replaced |
| Text.ReplaceAllAbsent | app/src/main/java/com/islemriguen/smartshop/ui/viewmodel/ChatViewModel.kt:83 | a string without the pattern's first character is left unchanged |
| Text.ReplaceAllOnce | app/src/main/java/com/islemriguen/smartshop/ui/viewmodel/ChatViewModel.kt:83 | a single occurrence surrounded by text without the pattern's first character is replaced once, in place |
| Text.NatToString | app/src/main/java/com/islemriguen/smartshop/utils/ExportUtils.kt:34 | the decimal digits of a natural number, never empty |
| Text.IntToString | app/src/main/java/com/islemriguen/smartshop/ui/viewmodel/ProductViewModel.kt:200 | Int.toString: a minus sign for negatives, then the digits |
| Text.DigitsOfNatToString | app/src/main/java/com/islemriguen/smartshop/ui/viewmodel/ProductViewModel.kt:200 | the digits printed for n have the value n |
| Text.ParseInt | app/src/main/java/com/islemriguen/smartshop/ui/viewmodel/ProductViewModel.kt:101 | toIntOrNull: an optional sign, at least one digit and a value in the 32-bit range, otherwise absent |
| Text.ParseIntToString | app/src/main/java/com/islemriguen/smartshop/ui/viewmodel/ProductViewModel.kt:101 | parsing what toString printed gives the number back, for every 32-bit value |
| Seqs.Filter | app/src/main/java/com/islemriguen/smartshop/data/local/dao/ProductDaoImpl.kt:66 | filter: at most as long as the input, every kept element is in the input and passes the test, and every passing element is kept |
| Seqs.FilterAppend | app/src/main/java/com/islemriguen/smartshop/data/local/dao/ProductDaoImpl.kt:66 | filtering a concatenation filters each part |
| Seqs.FilterKeepsAll | app/src/main/java/com/islemriguen/smartshop/data/local/dao/ProductDaoImpl.kt:66 | when every element passes, filter returns the input unchanged |
| Seqs.FilterIsSubsequence | app/src/main/java/com/islemriguen/smartshop/data/local/dao/ProductDaoImpl.kt:66 | the filtered list is a subsequence of the input: order is kept |
| Seqs.FilterMultiset | app/src/main/java/com/islemriguen/smartshop/data/local/dao/ProductDaoImpl.kt:66 | each passing value occurs as often as in the input, and a failing value not at all |
| Seqs.FilterCongruent | app/src/main/java/com/islemriguen/smartshop/data/local/dao/ProductDaoImpl.kt:66 | two tests that agree on every element give the same result |
| Seqs.FilterNarrow | app/src/main/java/com/islemriguen/smartshop/ui/screens/SearchScreens.kt:25-27 | a stricter test keeps a subsequence of what a looser test keeps |
| Domain.ToDomain | app/src/main/java/com/islemriguen/smartshop/domain/model/Product.kt:16-25 | copies every field of the entity into the product (the sync flag is dropped) |
| Domain.ToEntity | app/src/main/java/com/islemriguen/smartshop/domain/model/Product.kt:27-36 | copies every field of the product into the entity, with syncedWithCloud false |
| Domain.ToDomainList | app/src/main/java/com/islemriguen/smartshop/data/repository/ProductRepository.kt:21-25 | the list read from the repository has one product per stored entity, each its ToDomain, in table order |
| Domain.DomainRoundTrip | app/src/main/java/com/islemriguen/smartshop/domain/model/Product.kt:16-36 | product → entity → product gives the same product back |
| Domain.EntityRoundTrip | app/src/main/java/com/islemriguen/smartshop/domain/model/Product.kt:16-36 | entity → product → entity gives the entity back with only the sync flag cleared |
| Domain.TotalValue | app/src/main/java/com/islemriguen/smartshop/domain/model/Product.kt:12 | getTotalValue: price × quantity, with the quantity read as a number |
| Domain.StockValue | app/src/main/java/com/islemriguen/smartshop/utils/ExportUtils.kt:44 | sumOf { getTotalValue() }: the sum of the products' values, 0 for an empty list |
| Domain.StockValueAppend | app/src/main/java/com/islemriguen/smartshop/utils/ExportUtils.kt:44 | the value of two lists side by side is the sum of their values |
| Domain.StockValueBounds | app/src/main/java/com/islemriguen/smartshop/utils/ExportUtils.kt:44 | with no negative quantity or price the total is never negative, and no product is worth more than the total |
| Dao.IndexOfId | app/src/main/java/com/islemriguen/smartshop/data/local/dao/ProductDaoImpl.kt:33-40 | the index found by indexOfFirst is the first record with the id, and is -1 exactly when no record has it |
| Dao.FindById | app/src/main/java/com/islemriguen/smartshop/data/local/dao/ProductDaoImpl.kt:29-31 | firstOrNull on the id: absent exactly when no record has the id, otherwise the first record with it |
| Dao.UpdateFirst | app/src/main/java/com/islemriguen/smartshop/data/local/dao/ProductDaoImpl.kt:33-40 | only the first record with the entity's id is replaced; length and every id are kept; an unknown id changes nothing |
| Dao.RemoveAllByIdSpec | app/src/main/java/com/islemriguen/smartshop/data/local/dao/ProductDaoImpl.kt:42-52 | removeAll by id leaves no record with the id, keeps every other record in order with its multiplicity, and changes nothing for an unknown id |
| Dao.UnsyncedSpec | app/src/main/java/com/islemriguen/smartshop/data/local/dao/ProductDaoImpl.kt:65-67 | the unsynced list holds exactly the records whose flag is clear, in table order, each as often as in the table |
| Dao.TotalStockValue | app/src/main/java/com/islemriguen/smartshop/data/local/dao/ProductDaoImpl.kt:58-63 | the total is absent exactly for an empty table and otherwise the sum of price × quantity |
| Dao.EntityStockValueIsStockValue | app/src/main/java/com/islemriguen/smartshop/data/local/dao/ProductDaoImpl.kt:58-63 | the table total equals the sum of getTotalValue over the products read from it |
| Dao.IndexOfIdAppend | app/src/main/java/com/islemriguen/smartshop/data/local/dao/ProductDaoImpl.kt:18-23 | appending a record does not move the first match of an id already present, and makes it the last index otherwise |
| Dao.UniqueIdsPreserved | app/src/main/java/com/islemriguen/smartshop/data/local/dao/ProductDaoImpl.kt:33-52 | updating or deleting keeps the ids of the table distinct |
| Dao.UniqueIdsInsertFresh | app/src/main/java/com/islemriguen/smartshop/data/local/dao/ProductDaoImpl.kt:18-23 | inserting a record with an unused id keeps the ids distinct |
| Dao.ProductDaoImpl.constructor | app/src/main/java/com/islemriguen/smartshop/data/local/dao/ProductDaoImpl.kt:16 | the table starts empty |
| Dao.ProductDaoImpl.InsertProduct | app/src/main/java/com/islemriguen/smartshop/data/local/dao/ProductDaoImpl.kt:18-23 | appends the record and returns row id 1 |
| Dao.ProductDaoImpl.GetAllProducts | app/src/main/java/com/islemriguen/smartshop/data/local/dao/ProductDaoImpl.kt:25-27 | returns the current table |
| Dao.ProductDaoImpl.GetProductById | app/src/main/java/com/islemriguen/smartshop/data/local/dao/ProductDaoImpl.kt:29-31 | returns FindById of the table |
| Dao.ProductDaoImpl.UpdateProduct | app/src/main/java/com/islemriguen/smartshop/data/local/dao/ProductDaoImpl.kt:33-40 | the new table is UpdateFirst of the old one |
| Dao.ProductDaoImpl.DeleteProduct | app/src/main/java/com/islemriguen/smartshop/data/local/dao/ProductDaoImpl.kt:42-46 | the new table is the old one without the records sharing the entity's id |
| Dao.ProductDaoImpl.DeleteProductById | app/src/main/java/com/islemriguen/smartshop/data/local/dao/ProductDaoImpl.kt:48-52 | the new table is the old one without the records with the id |
| Dao.ProductDaoImpl.GetProductCount | app/src/main/java/com/islemriguen/smartshop/data/local/dao/ProductDaoImpl.kt:54-56 | returns the number of records |
| Dao.ProductDaoImpl.GetTotalStockValue | app/src/main/java/com/islemriguen/smartshop/data/local/dao/ProductDaoImpl.kt:58-63 | returns TotalStockValue of the table |
| Dao.ProductDaoImpl.GetUnsyncedProducts | app/src/main/java/com/islemriguen/smartshop/data/local/dao/ProductDaoImpl.kt:65-67 | returns the unsynced records |
| Repository.DeleteOutcome | app/src/main/java/com/islemriguen/smartshop/data/repository/ProductRepository.kt:59-70 | deleteProduct fails exactly when the cloud delete fails, carrying its message |
| Repository.RepositoryTotal | app/src/main/java/com/islemriguen/smartshop/data/repository/ProductRepository.kt:98-100 | the repository total is the table's sum, zero when the DAO reports none |
| Repository.FindProduct | app/src/main/java/com/islemriguen/smartshop/data/repository/ProductRepository.kt:73-75 | getProductById is absent exactly for an unknown id, otherwise the domain form of the first match |
| Repository.AddFresh | app/src/main/java/com/islemriguen/smartshop/data/repository/ProductRepository.kt:28-41 | adding under an unused id appends the entity, flagged synced exactly when the cloud write succeeded |
| Repository.AddThenRead | app/src/main/java/com/islemriguen/smartshop/data/repository/ProductRepository.kt:28-41 | after adding under an unused id, reading that id gives the product back |
| Repository.AddDuplicate | app/src/main/java/com/islemriguen/smartshop/data/repository/ProductRepository.kt:28-41 | adding under a stored id appends a second record and a successful sync overwrites the earlier one |
| Repository.UpdateEffect | app/src/main/java/com/islemriguen/smartshop/data/repository/ProductRepository.kt:44-56 | update rewrites the first match: with a successful sync the product's own updatedAt and the flag set, otherwise updatedAt = now and unsynced; an unknown id changes nothing |
| Repository.UpdateSyncedKeepsProductTimestamp | app/src/main/java/com/islemriguen/smartshop/data/repository/ProductRepository.kt:44-56 | after a successful sync the stored updatedAt is the product's, not the refreshed one |
| Repository.AfterSyncAllKeepsIds | app/src/main/java/com/islemriguen/smartshop/data/repository/ProductRepository.kt:103-113 | syncing all unsynced records keeps the table's length and ids |
| Repository.UniqueIdsInvariant | app/src/main/java/com/islemriguen/smartshop/data/repository/ProductRepository.kt:28-113 | add under an unused id, update, delete and sync-all all keep the ids distinct |
| Repository.SyncStep | app/src/main/java/com/islemriguen/smartshop/data/repository/ProductRepository.kt:78-91 | one sync attempt in the loop marks exactly the pushed record when its push succeeds |
| Repository.SyncPrefix | app/src/main/java/com/islemriguen/smartshop/data/repository/ProductRepository.kt:103-113 | after the first i attempts exactly the records whose push succeeded are marked |
| Repository.SyncMarksExactlySucceeded | app/src/main/java/com/islemriguen/smartshop/data/repository/ProductRepository.kt:103-113 | for a table whose ids are distinct, after sync-all each record is the old one, with its flag set exactly when it was unsynced and its push succeeded |
| Repository.SyncAllUnsynced | app/src/main/java/com/islemriguen/smartshop/data/repository/ProductRepository.kt:103-113 | when every record is unsynced, record j ends up synced exactly when push j succeeded |
| Repository.AllUnsyncedRanks | app/src/main/java/com/islemriguen/smartshop/data/local/dao/ProductDaoImpl.kt:65-67 | when no record is synced the unsynced list is the whole table |
| Repository.SyncScenario | app/src/main/java/com/islemriguen/smartshop/data/repository/ProductRepository.kt:103-113 | three unsynced records whose second push fails: the first and third end up synced, the second not |
| Repository.PenScenario | app/src/main/java/com/islemriguen/smartshop/data/repository/ProductRepository.kt:28-100 | adding 10 pens at 1.50 to an empty table gives a total of 15; deleting them gives 0 |
| Repository.ProductRepository.constructor | app/src/main/java/com/islemriguen/smartshop/data/repository/ProductRepository.kt:14-18 | the repository wraps the given DAO |
| Repository.ProductRepository.GetAllProducts | app/src/main/java/com/islemriguen/smartshop/data/repository/ProductRepository.kt:21-25 | returns the table mapped through toDomain |
| Repository.ProductRepository.AddProduct | app/src/main/java/com/islemriguen/smartshop/data/repository/ProductRepository.kt:28-41 | the table becomes AfterAdd of the old one; the result is success |
| Repository.ProductRepository.UpdateProduct | app/src/main/java/com/islemriguen/smartshop/data/repository/ProductRepository.kt:44-56 | the table becomes AfterUpdate of the old one with the clock reading; the result is success |
| Repository.ProductRepository.DeleteProduct | app/src/main/java/com/islemriguen/smartshop/data/repository/ProductRepository.kt:59-70 | the local records are removed whatever the cloud says; the result is DeleteOutcome |
| Repository.ProductRepository.GetProductById | app/src/main/java/com/islemriguen/smartshop/data/repository/ProductRepository.kt:73-75 | returns FindProduct of the table |
| Repository.ProductRepository.SyncProductToCloud | app/src/main/java/com/islemriguen/smartshop/data/repository/ProductRepository.kt:78-91 | the table becomes AfterSync of the old one; a failed push changes nothing |
| Repository.ProductRepository.GetProductCount | app/src/main/java/com/islemriguen/smartshop/data/repository/ProductRepository.kt:94-96 | returns the number of stored records |
| Repository.ProductRepository.GetTotalStockValue | app/src/main/java/com/islemriguen/smartshop/data/repository/ProductRepository.kt:98-100 | returns the stock value of the table, zero when empty |
| Repository.ProductRepository.SyncUnsyncedProducts | app/src/main/java/com/islemriguen/smartshop/data/repository/ProductRepository.kt:103-113 | the loop over the unsynced snapshot leaves the table equal to AfterSyncAll; the result is success |
| ProductUi.ValidationError | app/src/main/java/com/islemriguen/smartshop/ui/viewmodel/ProductViewModel.kt:85-111 | no error exactly when the form is well formed; the first failing check in the order name blank, quantity blank, price blank, quantity not a number ≥ 0, price not a number > 0 gives its message |
| ProductUi.ZeroQuantityAccepted | app/src/main/java/com/islemriguen/smartshop/ui/viewmodel/ProductViewModel.kt:101-104 | a quantity of 0 passes the "Quantity must be positive" check |
| ProductUi.NegativeQuantityRejected | app/src/main/java/com/islemriguen/smartshop/ui/viewmodel/ProductViewModel.kt:101-104 | a negative quantity, with name and price filled in, is rejected with "Quantity must be positive" |
| ProductUi.FormProduct | app/src/main/java/com/islemriguen/smartshop/ui/viewmodel/ProductViewModel.kt:120-125 | the product built from a valid form has the form's id and name, the quantity and price the form's text parses to (≥ 0 and > 0), and the clock reading as both timestamps |
| ProductUi.AddSuccessClearsForm | app/src/main/java/com/islemriguen/smartshop/ui/viewmodel/ProductViewModel.kt:128-140 | a successful add empties the fields, takes the fresh id, keeps the edit mode, and an immediate resubmit fails on the name |
| ProductUi.FailureKeepsSubmission | app/src/main/java/com/islemriguen/smartshop/ui/viewmodel/ProductViewModel.kt:141-146 | a failed add or update keeps every field, so a retry submits the same product; the error is the message or the default text |
| ProductUi.UpdateSuccessResetsForm | app/src/main/java/com/islemriguen/smartshop/ui/viewmodel/ProductViewModel.kt:164-169 | a successful update replaces the form with a default one flagged success and out of edit mode |
| ProductUi.EditThenSaveRoundTrip | app/src/main/java/com/islemriguen/smartshop/ui/viewmodel/ProductViewModel.kt:193-206 | loading a product for edit and saving it unchanged rebuilds the same product, with both timestamps set to the save time |
| ProductUi.EditFormQuantityParses | app/src/main/java/com/islemriguen/smartshop/ui/viewmodel/ProductViewModel.kt:193-206 | the quantity text written by loadProductForEdit parses back to the quantity; the form is in edit mode with the product's id |
| ProductUi.ProductViewModel.constructor | app/src/main/java/com/islemriguen/smartshop/ui/viewmodel/ProductViewModel.kt:42-67 | the list state is the default one fed the current table; the form is a default one with the initial id |
| ProductUi.ProductViewModel.CollectSnapshots | app/src/main/java/com/islemriguen/smartshop/ui/viewmodel/ProductViewModel.kt:47-67 | the three collectors copy the products, their count and their total into the list state; the form is untouched |
| ProductUi.ProductViewModel.UpdateFormName | app/src/main/java/com/islemriguen/smartshop/ui/viewmodel/ProductViewModel.kt:69-71 | sets the name and clears the error; nothing else changes |
| ProductUi.ProductViewModel.UpdateFormQuantity | app/src/main/java/com/islemriguen/smartshop/ui/viewmodel/ProductViewModel.kt:73-75 | sets the quantity and clears the error; nothing else changes |
| ProductUi.ProductViewModel.UpdateFormPrice | app/src/main/java/com/islemriguen/smartshop/ui/viewmodel/ProductViewModel.kt:77-79 | sets the price and clears the error; nothing else changes |
| ProductUi.ProductViewModel.UpdateSearchQuery | app/src/main/java/com/islemriguen/smartshop/ui/viewmodel/ProductViewModel.kt:81-83 | sets the search query; nothing else changes |
| ProductUi.ProductViewModel.ValidateProductForm | app/src/main/java/com/islemriguen/smartshop/ui/viewmodel/ProductViewModel.kt:85-111 | returns whether the form is well formed and, when it is not, stores the validation error |
| ProductUi.ProductViewModel.AddProduct | app/src/main/java/com/islemriguen/smartshop/ui/viewmodel/ProductViewModel.kt:114-148 | an invalid form only gets its error; a valid one is added through the repository and the form follows the success path |
| ProductUi.ProductViewModel.UpdateProduct | app/src/main/java/com/islemriguen/smartshop/ui/viewmodel/ProductViewModel.kt:150-177 | an invalid form only gets its error; a valid one is updated through the repository and the form is reset |
| ProductUi.ProductViewModel.DeleteProduct | app/src/main/java/com/islemriguen/smartshop/ui/viewmodel/ProductViewModel.kt:179-191 | the records are removed and the list state follows the delete result |
| ProductUi.ProductViewModel.LoadProductForEdit | app/src/main/java/com/islemriguen/smartshop/ui/viewmodel/ProductViewModel.kt:193-206 | a stored product fills an edit form; an unknown id leaves the form alone |
| ProductUi.ProductViewModel.ResetForm | app/src/main/java/com/islemriguen/smartshop/ui/viewmodel/ProductViewModel.kt:208-210 | the form becomes a default one with the fresh id |
| Search.SearchResults | app/src/main/java/com/islemriguen/smartshop/ui/screens/SearchScreens.kt:25-27 | the results are the listed products whose name contains the query ignoring case, in list order and each as often as listed |
| Search.ResultsInListOrder | app/src/main/java/com/islemriguen/smartshop/ui/screens/SearchScreens.kt:25-27 | the results are a subsequence of the list |
| Search.EmptyQueryShowsAll | app/src/main/java/com/islemriguen/smartshop/ui/screens/SearchScreens.kt:25-27 | an empty query shows the whole list |
| Search.QueryCaseIgnored | app/src/main/java/com/islemriguen/smartshop/ui/screens/SearchScreens.kt:25-27 | queries equal up to letter case give the same results |
| Search.LongerQueryNarrows | app/src/main/java/com/islemriguen/smartshop/ui/screens/SearchScreens.kt:25-27 | a query containing another one gives a subsequence of its results |
| Search.SearchAppend | app/src/main/java/com/islemriguen/smartshop/ui/screens/SearchScreens.kt:25-27 | searching two concatenated lists concatenates their results |
| Chat.Classify | app/src/main/java/com/islemriguen/smartshop/ui/viewmodel/ChatViewModel.kt:74-85 | the chosen topic mentions one of its keywords and no earlier topic's keyword occurs in the message |
| Chat.GenerateBotResponse | app/src/main/java/com/islemriguen/smartshop/ui/viewmodel/ChatViewModel.kt:74-85 | generateBotResponse: the reply of the first topic whose keyword the lower-cased message holds, else the default reply with {query} replaced by the message; its properties are stated by GenerateBotResponseSpec |
| Chat.ClassifyOtherIffNoKeyword | app/src/main/java/com/islemriguen/smartshop/ui/viewmodel/ChatViewModel.kt:74-85 | the default branch is taken exactly when no keyword occurs |
| Chat.GenerateBotResponseSpec | app/src/main/java/com/islemriguen/smartshop/ui/viewmodel/ChatViewModel.kt:74-85 | the reply is the table entry of the first matching topic, or the default template with the message quoted in place of {query} |
| Chat.DefaultQuoting | app/src/main/java/com/islemriguen/smartshop/ui/viewmodel/ChatViewModel.kt:33-40 | replacing {query} in the default template quotes the message once, between the lead and the tail |
| Chat.PlaceholderOnlyBrace | app/src/main/java/com/islemriguen/smartshop/ui/viewmodel/ChatViewModel.kt:33-40 | the default template has no other opening brace than the placeholder's |
| Chat.RepliesDistinct | app/src/main/java/com/islemriguen/smartshop/ui/viewmodel/ChatViewModel.kt:33-40 | the replies of different topics differ, and no topic reply equals or starts like a default reply, whatever message it quotes |
| Chat.DefaultReplyIffNoKeyword | app/src/main/java/com/islemriguen/smartshop/ui/viewmodel/ChatViewModel.kt:74-85 | the default reply is given exactly when the message mentions no keyword |
| Chat.ReplyIgnoresCase | app/src/main/java/com/islemriguen/smartshop/ui/viewmodel/ChatViewModel.kt:74-85 | messages equal up to letter case get the same topic reply |
| Chat.WhateverGetsHelp | app/src/main/java/com/islemriguen/smartshop/ui/viewmodel/ChatViewModel.kt:74-85 | "whatever" contains "what" and no earlier keyword, so it gets the help reply |
| Chat.UpperCaseStats | app/src/main/java/com/islemriguen/smartshop/ui/viewmodel/ChatViewModel.kt:74-85 | "Show me the STATS" gets the statistics reply |
| Chat.HelloGetsDefault | app/src/main/java/com/islemriguen/smartshop/ui/viewmodel/ChatViewModel.kt:74-85 | "hello" gets the default reply quoting it |
| Chat.ChatViewModel.constructor | app/src/main/java/com/islemriguen/smartshop/ui/viewmodel/ChatViewModel.kt:23-31 | the conversation and the input start empty and nothing is loading |
| Chat.ChatViewModel.UpdateInput | app/src/main/java/com/islemriguen/smartshop/ui/viewmodel/ChatViewModel.kt:42-44 | sets the input text; nothing else changes |
| Chat.ChatViewModel.SendMessage | app/src/main/java/com/islemriguen/smartshop/ui/viewmodel/ChatViewModel.kt:46-62 | a blank input changes nothing; otherwise the trimmed text is appended as a user message, the input is cleared, loading starts and a reply becomes owed to that text; every user message stays trimmed and non-empty |
| Chat.ChatViewModel.DeliverReply | app/src/main/java/com/islemriguen/smartshop/ui/viewmodel/ChatViewModel.kt:64-71 | only for the oldest message still owed a reply: appends the bot's reply to it, stops loading and settles that debt |
| Chat.ChatViewModel.SendMessageAndReply | app/src/main/java/com/islemriguen/smartshop/ui/viewmodel/ChatViewModel.kt:46-72 | a blank input changes nothing; otherwise the trimmed input and then the reply generated from it are appended, the input is empty and loading is off |
| Export.BlocksPrefix | app/src/main/java/com/islemriguen/smartshop/utils/ExportUtils.kt:81-87 | the lines written for the first m products are a prefix of the lines for all of them |
| Export.BlocksAt | app/src/main/java/com/islemriguen/smartshop/utils/ExportUtils.kt:135-141 | with blocks of k lines, line k·i + j is line j of product i's block |
| Export.BlocksLength | app/src/main/java/com/islemriguen/smartshop/utils/ExportUtils.kt:135-141 | blocks of k lines per product give k × count lines |
| Export.MaxPriceIndex | app/src/main/java/com/islemriguen/smartshop/utils/ExportUtils.kt:98 | maxByOrNull on the price picks an index of the list |
| Export.MaxPriceIndexIsFirstMax | app/src/main/java/com/islemriguen/smartshop/utils/ExportUtils.kt:98 | the picked product has the highest price, and every earlier product a strictly lower one |
| Export.MinQuantityIndex | app/src/main/java/com/islemriguen/smartshop/utils/ExportUtils.kt:99 | minByOrNull on the quantity picks an index of the list |
| Export.MinQuantityIndexIsFirstMin | app/src/main/java/com/islemriguen/smartshop/utils/ExportUtils.kt:99 | the picked product has the lowest quantity, and every earlier product a strictly higher one |
| Export.Rule | app/src/main/java/com/islemriguen/smartshop/utils/ExportUtils.kt:303-305 | the rule line is 80 characters long |
| Export.RuleChars | app/src/main/java/com/islemriguen/smartshop/utils/ExportUtils.kt:303-305 | every character of the rule is the repeated one |
| Export.RuleIsTimes | app/src/main/java/com/islemriguen/smartshop/utils/ExportUtils.kt:303-305 | the rule is String.times: the one-character string repeated 80 times |
| Export.CsvRows | app/src/main/java/com/islemriguen/smartshop/utils/ExportUtils.kt:32-38 | one CSV row per product |
| Export.CsvRowAt | app/src/main/java/com/islemriguen/smartshop/utils/ExportUtils.kt:32-38 | row i is the row of product i |
| Export.BuildCsv | app/src/main/java/com/islemriguen/smartshop/utils/ExportUtils.kt:27-49 | the content built line by line is the CSV lines joined with newlines |
| Export.AppendCsvRows | app/src/main/java/com/islemriguen/smartshop/utils/ExportUtils.kt:32-38 | the loop appends exactly the product rows, in order |
| Export.BuildCsvRow | app/src/main/java/com/islemriguen/smartshop/utils/ExportUtils.kt:33-37 | builds the product's CSV row |
| Export.CsvRowQuotesName | app/src/main/java/com/islemriguen/smartshop/utils/ExportUtils.kt:33 | each row starts with the quoted name and a comma |
| Export.CsvLayout | app/src/main/java/com/islemriguen/smartshop/utils/ExportUtils.kt:27-49 | header first, product i on line 1 + i, the product count after the summary heading, and one extra line when the list is not empty |
| Export.CsvAverageIffNonEmpty | app/src/main/java/com/islemriguen/smartshop/utils/ExportUtils.kt:46-48 | the average line is written exactly when there are products |
| Export.ExcelRows | app/src/main/java/com/islemriguen/smartshop/utils/ExportUtils.kt:81-87 | one TSV row per product |
| Export.ExcelRowAt | app/src/main/java/com/islemriguen/smartshop/utils/ExportUtils.kt:81-87 | row i is the numbered row of product i |
| Export.ExcelRowStarts | app/src/main/java/com/islemriguen/smartshop/utils/ExportUtils.kt:82 | each row starts with its 1-based number, the name and a tab |
| Export.BuildExcel | app/src/main/java/com/islemriguen/smartshop/utils/ExportUtils.kt:71-101 | the content built line by line is the sheet's lines joined with newlines |
| Export.AppendExcelRows | app/src/main/java/com/islemriguen/smartshop/utils/ExportUtils.kt:81-87 | the loop appends exactly the numbered rows, in order |
| Export.BuildExcelRow | app/src/main/java/com/islemriguen/smartshop/utils/ExportUtils.kt:82-86 | builds the numbered row of product i |
| Export.ExcelRowsNumbered | app/src/main/java/com/islemriguen/smartshop/utils/ExportUtils.kt:71-101 | the sheet has 10 lines plus one per product plus three when not empty, and product i's row sits after the header, numbered i + 1 |
| Export.ExcelExtremeLines | app/src/main/java/com/islemriguen/smartshop/utils/ExportUtils.kt:95-100 | for a non-empty list the last three lines are the average line, the most-expensive line naming the first product of highest price, and the lowest-stock line naming the first product of lowest quantity |
| Export.ExcelEmptyLines | app/src/main/java/com/islemriguen/smartshop/utils/ExportUtils.kt:71-101 | the sheet of an empty list has 10 lines, each blank or starting with S, G, P or T, so none is an average, most-expensive or lowest-stock line |
| Export.ExcelExtremesIffNonEmpty | app/src/main/java/com/islemriguen/smartshop/utils/ExportUtils.kt:95-100 | the average, most-expensive and lowest-stock lines are each written exactly when there are products |
| Export.TextBlocks | app/src/main/java/com/islemriguen/smartshop/utils/ExportUtils.kt:135-141 | six report lines per product |
| Export.TextDetails | app/src/main/java/com/islemriguen/smartshop/utils/ExportUtils.kt:132-141 | the details section is two heading lines plus six per product |
| Export.BuildTextReport | app/src/main/java/com/islemriguen/smartshop/utils/ExportUtils.kt:121-156 | the content built line by line is the report's lines joined with newlines |
| Export.AppendTextBlocks | app/src/main/java/com/islemriguen/smartshop/utils/ExportUtils.kt:135-141 | the loop appends exactly the product blocks, in order |
| Export.TextNoProductsIffEmpty | app/src/main/java/com/islemriguen/smartshop/utils/ExportUtils.kt:129-130 | the "No products in inventory." line appears exactly when the list is empty |
| Export.TextBlocksAvoid | app/src/main/java/com/islemriguen/smartshop/utils/ExportUtils.kt:135-141 | no product block line starts with N, so none is the empty-list line |
| Export.TextBlockLine | app/src/main/java/com/islemriguen/smartshop/utils/ExportUtils.kt:135-141 | line 6·i + j of the blocks is line j of product i's block |
| Export.TextBlocksInOrder | app/src/main/java/com/islemriguen/smartshop/utils/ExportUtils.kt:136 | product i's block opens with a blank line and then its 1-based number and name |
| Export.TextReportLayout | app/src/main/java/com/islemriguen/smartshop/utils/ExportUtils.kt:121-156 | a non-empty report has 22 + 6 × count lines, and the details sit right after the seven header lines |
| Export.TextExtremeLines | app/src/main/java/com/islemriguen/smartshop/utils/ExportUtils.kt:142-150 | a non-empty report has 22 + 6 × count lines, and just before the four closing lines come the average line, the most-expensive line naming the first product of highest price, and the lowest-stock line naming the first product of lowest quantity |
| Export.TextEmptyLines | app/src/main/java/com/islemriguen/smartshop/utils/ExportUtils.kt:121-156 | the report of an empty list has 12 lines, each blank or starting with =, S, G, T, N or E |
| Export.TextExtremesIffNonEmpty | app/src/main/java/com/islemriguen/smartshop/utils/ExportUtils.kt:141-150 | the average, most-expensive and lowest-stock lines are each written exactly when there are products |
| Export.JsonObjects | app/src/main/java/com/islemriguen/smartshop/utils/ExportUtils.kt:183-194 | eight JSON lines per product |
| Export.BuildJson | app/src/main/java/com/islemriguen/smartshop/utils/ExportUtils.kt:176-198 | the content built line by line is the document's lines joined with newlines |
| Export.AppendJsonObjects | app/src/main/java/com/islemriguen/smartshop/utils/ExportUtils.kt:183-194 | the loop appends exactly the product objects, in order |
| Export.BuildJsonObject | app/src/main/java/com/islemriguen/smartshop/utils/ExportUtils.kt:184-193 | builds the object of product i |
| Export.JsonCloseLine | app/src/main/java/com/islemriguen/smartshop/utils/ExportUtils.kt:191-193 | an object's closing line has a comma unless it is the last object |
| Export.JsonSeparators | app/src/main/java/com/islemriguen/smartshop/utils/ExportUtils.kt:176-198 | the document has 7 + 8 × count lines, states the count, and object i closes with a comma exactly when it is not the last |
| Export.MimeType | app/src/main/java/com/islemriguen/smartshop/utils/ExportUtils.kt:265-271 | the first suffix in the order .csv, .xlsx, .txt, .json that the file name ends with picks its mime type; text/plain when none does |
| Export.ExportedFileMime | app/src/main/java/com/islemriguen/smartshop/utils/ExportUtils.kt:265-271 | each exporter's file name is shared with its own mime type (.txt as text/plain) |

## Left out

- Firestore, Room, Firebase Auth and every network or file call are not modelled. The outcome of each remote write is a parameter (`Remote`), and the file is not written: each exporter returns the content it would write.
- Coroutines, `StateFlow` collection and timing are not modelled. The collectors are one `CollectSnapshots` step. The 800 ms pause in `sendMessage` splits it into `SendMessage` and `DeliverReply`.
- Floating-point behaviour is not modelled. Prices are exact reals, and `Double.toString`, `toDoubleOrNull`, `"%.2f"` and the date formats are uninterpreted function parameters. NaN and infinity do not arise.
- Quantities are 32-bit values (`Int32`). The `toInt()` calls in add and update run only after `toIntOrNull` succeeded, so they are modelled as the value it parsed; the exception `toInt()` would throw cannot occur there.
- `ignoreCase` and `lowercase()` fold ASCII letters only. Other Unicode case mappings are not modelled.
- Logging, the share intent (apart from its mime type), `getExportedFiles`, `getExportFilePath`, `deleteExportFile`, `getCacheDirSize`, the clock and date helpers (`getCurrentDate`, `getCurrentDateTime` and `formatDate`, which are parameters here), `ExportViewModel` and the screens apart from the search filter are not part of this model.
- The exception paths of add, update and sync-all are not modelled. The local table never throws, and a failed cloud write is swallowed by `syncProductToCloud`, so these operations always report success. The failure branches of the view model are proved separately (`ProductUi.FailureKeepsSubmission`).
- Repository.ProductRepository.SyncUnsyncedProducts: takes one cloud outcome per unsynced record (`|outcomes|` equal to the snapshot's length), because the replies are inputs and not calls.
- ProductUi.FormProduct: uses one clock reading for both `createdAt` and `updatedAt`, where the source reads the clock twice through its default arguments.
- Text.IsWhitespace and Text.ParseInt: whitespace and digits are ASCII only. Kotlin's `isBlank` and `trim` also treat U+00A0, U+2000–U+200A, U+3000 and other Unicode spaces as whitespace, so a name of one no-break space is refused by the app but accepted here. `toIntOrNull` accepts every Unicode decimal digit, so the full-width "３" parses to 3 in the app but is refused here.
- Chat.ChatViewModel.SendMessageAndReply: requires that no earlier reply is still owed. Two sends whose coroutines overlap are modelled only step by step, through `SendMessage` and `DeliverReply` and the queue of owed replies; the equal 800 ms pauses make the replies come in send order.
- The repository's `getProductById` and `getAllProducts` are modelled on the table's current value, not as flows.
