/**
 * ProductViewModel: the list view-state and the form view-state, and the
 * validated add / update / delete / edit-load steps. Each coroutine body is
 * one sequential step; the repository streams are read as their current
 * snapshot. String.toDoubleOrNull and Double.toString are not modelled:
 * they are the functions `parsePrice` and `formatPrice` given to the
 * view-model.
 */
module ProductUi {
  import opened Wrappers
  import opened Text
  import opened Domain
  import opened Dao
  import opened Repository

  datatype ProductListUiState = ProductListUiState(
    products: seq<Product>,
    isLoading: bool,
    error: Option<string>,
    totalProducts: int,
    totalValue: real,
    searchQuery: string)

  const DefaultListState := ProductListUiState([], false, None, 0, 0.0, "")

  datatype ProductFormUiState = ProductFormUiState(
    id: string,
    name: string,
    quantity: string,
    price: string,
    isLoading: bool,
    error: Option<string>,
    isSuccess: bool,
    isEditMode: bool)

  /** ProductFormUiState() with its id drawn from a fresh UUID. */
  function DefaultFormState(id: string): ProductFormUiState {
    ProductFormUiState(id, "", "", "", false, None, false, false)
  }

  const NameRequired := "Product name required"
  const QuantityRequired := "Quantity required"
  const PriceRequired := "Price required"
  const QuantityMustBePositive := "Quantity must be positive"
  const PriceMustBePositive := "Price must be > 0"

  /** A form that passes every check, stated without regard to order. */
  predicate WellFormed(form: ProductFormUiState, parsePrice: string -> Option<real>) {
    && !IsBlank(form.name)
    && !IsBlank(form.price)
    && ParseInt(form.quantity).Some? && ParseInt(form.quantity).value >= 0
    && parsePrice(form.price).Some? && parsePrice(form.price).value > 0.0
  }

  /** validateProductForm: the message of the first failing check, if any.
      The checks run in a fixed order and the first failure wins. */
  function ValidationError(form: ProductFormUiState, parsePrice: string -> Option<real>): (r: Option<string>)
    ensures r.None? <==> WellFormed(form, parsePrice)
    ensures IsBlank(form.name) ==> r == Some(NameRequired)
    ensures !IsBlank(form.name) && IsBlank(form.quantity) ==> r == Some(QuantityRequired)
    ensures !IsBlank(form.name) && !IsBlank(form.quantity) && IsBlank(form.price) ==> r == Some(PriceRequired)
    ensures !IsBlank(form.name) && !IsBlank(form.quantity) && !IsBlank(form.price)
      && !(ParseInt(form.quantity).Some? && ParseInt(form.quantity).value >= 0)
      ==> r == Some(QuantityMustBePositive)
    ensures !IsBlank(form.name) && !IsBlank(form.quantity) && !IsBlank(form.price)
      && ParseInt(form.quantity).Some? && ParseInt(form.quantity).value >= 0
      && !(parsePrice(form.price).Some? && parsePrice(form.price).value > 0.0)
      ==> r == Some(PriceMustBePositive)
    ensures r.Some? ==> r.value in {NameRequired, QuantityRequired, PriceRequired, QuantityMustBePositive, PriceMustBePositive}
  {
    if IsBlank(form.name) then Some(NameRequired)
    else if IsBlank(form.quantity) then Some(QuantityRequired)
    else if IsBlank(form.price) then Some(PriceRequired)
    else if ParseInt(form.quantity).None? || ParseInt(form.quantity).value < 0 then Some(QuantityMustBePositive)
    else if parsePrice(form.price).None? || parsePrice(form.price).value <= 0.0 then Some(PriceMustBePositive)
    else None
  }

  /** The quantity "0" is accepted: the check rejects only negatives. */
  lemma ZeroQuantityAccepted(form: ProductFormUiState, parsePrice: string -> Option<real>)
    requires !IsBlank(form.name) && !IsBlank(form.price)
    requires parsePrice(form.price).Some? && parsePrice(form.price).value > 0.0
    requires form.quantity == "0"
    ensures ValidationError(form, parsePrice) == None
  {
    assert DigitsValue("0") == 0 by {
      assert "0"[..0] == "";
    }
  }

  /** A negative quantity is rejected with the quantity message once the
      three blank checks have passed. */
  lemma NegativeQuantityRejected(form: ProductFormUiState, parsePrice: string -> Option<real>, n: Int32)
    requires !IsBlank(form.name) && !IsBlank(form.price) && n < 0
    requires form.quantity == IntToString(n)
    ensures ValidationError(form, parsePrice) == Some(QuantityMustBePositive)
  {
    ParseIntToString(n);
    assert form.quantity[0] == '-';
  }

  /** The product that addProduct / updateProduct build from a valid form. */
  function FormProduct(form: ProductFormUiState, parsePrice: string -> Option<real>, now: int): (p: Product)
    requires WellFormed(form, parsePrice)
    ensures p.id == form.id && p.name == form.name && p.quantity >= 0 && p.price > 0.0
    ensures Some(p.quantity) == ParseInt(form.quantity) && Some(p.price) == parsePrice(form.price)
    ensures p.createdAt == now && p.updatedAt == now
  {
    Product(form.id, form.name, ParseInt(form.quantity).value, parsePrice(form.price).value, now, now)
  }

  /** addProduct's handling of the repository result. */
  function FormAfterAddResult(form: ProductFormUiState, result: Outcome, freshId: string): ProductFormUiState {
    match result
    case Success =>
      form.(isSuccess := true, isLoading := false, name := "", quantity := "", price := "", id := freshId)
    case Failure(message) =>
      form.(isLoading := false, error := Some(message.GetOr("Failed to add product")))
  }

  /** updateProduct's handling of the repository result. */
  function FormAfterUpdateResult(form: ProductFormUiState, result: Outcome, freshId: string): ProductFormUiState {
    match result
    case Success => DefaultFormState(freshId).(isSuccess := true, isEditMode := false)
    case Failure(message) => form.(isLoading := false, error := Some(message.GetOr("Failed to update")))
  }

  /** loadProductForEdit: a fresh form filled from the stored product. */
  function EditForm(p: Product, formatPrice: real -> string): ProductFormUiState {
    ProductFormUiState(p.id, p.name, IntToString(p.quantity), formatPrice(p.price), false, None, false, true)
  }

  /** deleteProduct's list state: loading is switched on, and switched off
      only on failure, together with the error message. */
  function ListAfterDelete(list: ProductListUiState, result: Outcome): ProductListUiState {
    match result
    case Success => list.(isLoading := true)
    case Failure(message) => list.(isLoading := false, error := Some(message.GetOr("Failed to delete")))
  }

  /** The three collectors of the list state, fed the current table. */
  function WithSnapshot(list: ProductListUiState, table: seq<ProductEntity>): ProductListUiState {
    list.(products := ToDomainList(table), totalProducts := |table|, totalValue := RepositoryTotal(table))
  }

  // -----------------------------------------------------------------------
  // Properties of the form state machine
  // -----------------------------------------------------------------------

  /** A successful add empties the fields, so submitting again at once is
      stopped by validation ("Product name required"); the edit mode is kept
      and the next add gets the fresh id. */
  lemma AddSuccessClearsForm(form: ProductFormUiState, freshId: string, parsePrice: string -> Option<real>)
    ensures var f := FormAfterAddResult(form, Success, freshId);
      && f.name == "" && f.quantity == "" && f.price == ""
      && f.isSuccess && !f.isLoading && f.id == freshId && f.isEditMode == form.isEditMode
      && ValidationError(f, parsePrice) == Some(NameRequired)
  {
  }

  /** A failed add or update keeps every field, so a retry validates the
      same way and submits the same product; the error is the repository's
      message or the default text. */
  lemma FailureKeepsSubmission(form: ProductFormUiState, message: Option<string>, freshId: string,
                               parsePrice: string -> Option<real>, now: int)
    requires WellFormed(form, parsePrice)
    ensures var f := FormAfterAddResult(form, Failure(message), freshId);
      && WellFormed(f, parsePrice)
      && FormProduct(f, parsePrice, now) == FormProduct(form, parsePrice, now)
      && !f.isLoading && f.error == Some(message.GetOr("Failed to add product"))
    ensures var f := FormAfterUpdateResult(form, Failure(message), freshId);
      && WellFormed(f, parsePrice)
      && FormProduct(f, parsePrice, now) == FormProduct(form, parsePrice, now)
      && !f.isLoading && f.error == Some(message.GetOr("Failed to update"))
  {
  }

  /** A successful update resets the whole form to its defaults (fresh id,
      not in edit mode), with only the success flag raised. */
  lemma UpdateSuccessResetsForm(form: ProductFormUiState, freshId: string, parsePrice: string -> Option<real>)
    ensures FormAfterUpdateResult(form, Success, freshId) == DefaultFormState(freshId).(isSuccess := true)
    ensures ValidationError(FormAfterUpdateResult(form, Success, freshId), parsePrice) == Some(NameRequired)
  {
  }

  /** Loading a stored product for editing and saving it straight away
      submits the same product again, except that both timestamps become the
      save time: the quantity text re-parses to the stored quantity, and the
      price does too whenever the price printer and parser agree on it. */
  lemma EditThenSaveRoundTrip(p: Product, formatPrice: real -> string, parsePrice: string -> Option<real>, now: int)
    requires !IsBlank(p.name) && p.quantity >= 0 && p.price > 0.0
    requires !IsBlank(formatPrice(p.price)) && parsePrice(formatPrice(p.price)) == Some(p.price)
    ensures WellFormed(EditForm(p, formatPrice), parsePrice)
    ensures FormProduct(EditForm(p, formatPrice), parsePrice, now) == p.(createdAt := now, updatedAt := now)
  {
    ParseIntToString(p.quantity);
  }

  /** The edit form's quantity text always parses back to the stored value. */
  lemma EditFormQuantityParses(p: Product, formatPrice: real -> string)
    ensures ParseInt(EditForm(p, formatPrice).quantity) == Some(p.quantity)
    ensures EditForm(p, formatPrice).isEditMode && EditForm(p, formatPrice).id == p.id
  {
    ParseIntToString(p.quantity);
  }

  /**
   * The view-model. `listState` and `formState` are the current values of
   * its two state flows.
   */
  class ProductViewModel {
    const repository: ProductRepository
    const parsePrice: string -> Option<real>
    const formatPrice: real -> string
    var listState: ProductListUiState
    var formState: ProductFormUiState

    /** The initial states; the list collectors deliver the current table at
        once. */
    constructor (repository: ProductRepository, parsePrice: string -> Option<real>,
                 formatPrice: real -> string, initialFormId: string)
      ensures this.repository == repository
      ensures this.parsePrice == parsePrice && this.formatPrice == formatPrice
      ensures listState == WithSnapshot(DefaultListState, repository.dao.products)
      ensures formState == DefaultFormState(initialFormId)
    {
      this.repository := repository;
      this.parsePrice := parsePrice;
      this.formatPrice := formatPrice;
      listState := WithSnapshot(DefaultListState, repository.dao.products);
      formState := DefaultFormState(initialFormId);
    }

    /** loadProducts / loadStatistics: the collectors receive the current
        table, count and total. */
    method CollectSnapshots()
      modifies this
      ensures listState == WithSnapshot(old(listState), repository.dao.products)
      ensures formState == old(formState)
    {
      var products := repository.GetAllProducts();
      var count := repository.GetProductCount();
      var total := repository.GetTotalStockValue();
      listState := listState.(products := products, totalProducts := count, totalValue := total);
    }

    method UpdateFormName(name: string)
      modifies this
      ensures formState == old(formState).(name := name, error := None)
      ensures listState == old(listState)
    {
      formState := formState.(name := name, error := None);
    }

    method UpdateFormQuantity(quantity: string)
      modifies this
      ensures formState == old(formState).(quantity := quantity, error := None)
      ensures listState == old(listState)
    {
      formState := formState.(quantity := quantity, error := None);
    }

    method UpdateFormPrice(price: string)
      modifies this
      ensures formState == old(formState).(price := price, error := None)
      ensures listState == old(listState)
    {
      formState := formState.(price := price, error := None);
    }

    method UpdateSearchQuery(query: string)
      modifies this
      ensures listState == old(listState).(searchQuery := query)
      ensures formState == old(formState)
    {
      listState := listState.(searchQuery := query);
    }

    /** Records the first failing check's message in `error`. */
    method ValidateProductForm() returns (valid: bool)
      modifies this
      ensures valid <==> WellFormed(old(formState), parsePrice)
      ensures formState == if valid then old(formState)
                           else old(formState).(error := ValidationError(old(formState), parsePrice))
      ensures listState == old(listState)
    {
      var error := ValidationError(formState, parsePrice);
      if error.Some? {
        formState := formState.(error := error);
        return false;
      }
      return true;
    }

    /** addProduct; `now` is the clock reading taken for both timestamps and
        `freshId` the UUID prepared for the next add. */
    method AddProduct(remote: Remote, now: int, freshId: string)
      modifies this, repository.dao
      ensures !WellFormed(old(formState), parsePrice) ==>
        formState == old(formState).(error := ValidationError(old(formState), parsePrice))
        && repository.dao.products == old(repository.dao.products)
      ensures WellFormed(old(formState), parsePrice) ==>
        repository.dao.products ==
          AfterAdd(old(repository.dao.products), FormProduct(old(formState), parsePrice, now), remote)
        && formState == FormAfterAddResult(old(formState).(isLoading := true), Success, freshId)
      ensures listState == old(listState)
    {
      var valid := ValidateProductForm();
      if !valid {
        return;
      }
      formState := formState.(isLoading := true);
      var product := FormProduct(formState, parsePrice, now);
      var result := repository.AddProduct(product, remote);
      formState := FormAfterAddResult(formState, result, freshId);
    }

    /** updateProduct; the repository stamps `now` as the new updatedAt. */
    method UpdateProduct(remote: Remote, now: int, freshId: string)
      modifies this, repository.dao
      ensures !WellFormed(old(formState), parsePrice) ==>
        formState == old(formState).(error := ValidationError(old(formState), parsePrice))
        && repository.dao.products == old(repository.dao.products)
      ensures WellFormed(old(formState), parsePrice) ==>
        repository.dao.products ==
          AfterUpdate(old(repository.dao.products), FormProduct(old(formState), parsePrice, now), now, remote)
        && formState == FormAfterUpdateResult(old(formState), Success, freshId)
      ensures listState == old(listState)
    {
      var valid := ValidateProductForm();
      if !valid {
        return;
      }
      formState := formState.(isLoading := true);
      var product := FormProduct(formState, parsePrice, now);
      var result := repository.UpdateProduct(product, now, remote);
      formState := FormAfterUpdateResult(formState, result, freshId);
    }

    method DeleteProduct(productId: string, remote: Remote)
      modifies this, repository.dao
      ensures repository.dao.products == RemoveAllById(old(repository.dao.products), productId)
      ensures listState == ListAfterDelete(old(listState), DeleteOutcome(remote))
      ensures formState == old(formState)
    {
      listState := listState.(isLoading := true);
      var result := repository.DeleteProduct(productId, remote);
      if result.Failure? {
        listState := listState.(isLoading := false, error := Some(result.message.GetOr("Failed to delete")));
      }
    }

    /** An unknown id leaves the form as it was. */
    method LoadProductForEdit(productId: string)
      modifies this
      ensures formState == match FindProduct(repository.dao.products, productId)
        case Some(p) => EditForm(p, formatPrice)
        case None => old(formState)
      ensures listState == old(listState)
    {
      var product := repository.GetProductById(productId);
      if product.Some? {
        formState := EditForm(product.value, formatPrice);
      }
    }

    method ResetForm(freshId: string)
      modifies this
      ensures formState == DefaultFormState(freshId)
      ensures listState == old(listState)
    {
      formState := DefaultFormState(freshId);
    }
  }
}
