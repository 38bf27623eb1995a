# Product catalog object model

A Dafny model of the object model of a small product catalog. A `Product` is a
record of name, description, price and stock quantity. A `Category` is a named,
ordered list of products. Every category shares two counters: how many
categories have been built (`category_count`) and how many products they were
built with (`product_count`).

- `models.dfy` (module `Models`): the classes. `Product` stores its four
  constructor arguments. `Registry` holds the two shared counters, which the
  source keeps as class attributes of `Category`. `Category` stores its name,
  description and products, and updates the registry it is built against.
  `BuildEach` builds one category per record against a single registry.
  `TwoCategories` and `OneCategory` are clients that build categories from
  reset counters and report what the counters read.
- `counters.dfy` (module `Counters`): the counters as a value. `Build` is a run
  of category constructions, one entry per product-list length. The lemmas
  relate a run to its result.

`price` is a `real` that is only stored. `quantity` and the counters are
unbounded `int`s, like Python's `int`.

tests/test_models.py:207-210 expects building a product with quantity 0 to
raise `ValueError`, but the constructor at src/models.py:5-9 checks nothing and
raises nothing. The model follows the code, so a `Product` accepts any price and
any quantity, zero included.

## Model

| member | source | states |
|---|---|---|
| `Models.Product.constructor` | src/models.py:5-9 | The four fields equal the arguments exactly. There is no precondition, so construction succeeds for every price and quantity. |
| `Models.Registry.constructor` | src/models.py:14-15 | Both shared counters start at zero; a test's counter reset is a fresh registry. |
| `Models.Category.constructor` | src/models.py:17-26 | Name, description and product sequence are stored in the order given. `category_count` grows by exactly 1 and `product_count` by exactly the list length. Each product passed in is left unchanged, and only the registry may be modified. |
| `Models.BuildEach` | src/models.py:17-26 | Building one category per record, in order, against one registry gives categories with each record's name, description and products. The registry's counters end where `Build` says: `category_count` has grown by the number of records and `product_count` by the total length of their product lists. |
| `Models.TwoCategories` | src/models.py:14-26 | From reset counters, categories with two products and then one product give counters 2 and 3. |
| `Models.OneCategory` | src/models.py:14-26 | From reset counters, one category with two products gives counters 1 and 2. |
| `Counters.Build` | src/models.py:23-26 | After n constructions, `categoryCount` has grown by n and `productCount` by the total length of the n product lists. |
| `Counters.FromZero` | src/models.py:14-26 | Starting from zero, the counters end at the number of categories and at the total number of products. |
| `Counters.SumAppend` | src/models.py:26 | The products counted over two batches of lists is the sum of each batch's count. |
| `Counters.BuildAppend` | src/models.py:23-26 | Two batches of constructions, one after the other, reach the same counters as one run over both batches. |
| `Counters.NeverDecrease` | src/models.py:23-26 | Across any history of constructions, the counters after a shorter prefix never exceed those after a longer prefix. |
| `Counters.EmptyListsAddNoProducts` | src/models.py:26 | Constructions with empty product lists increase `categoryCount` only and leave `productCount` unchanged. |
| `Counters.SumZeroIffAllEmpty` | src/models.py:26 | The product count stays the same after a run of constructions if and only if every product list in the run is empty. |

## Left out

- Python list aliasing: a category keeps the caller's list object, not a copy.
  The model stores a `seq<Product>` snapshot, so later changes to the caller's list are not reflected.
- The counters as class attributes: they are an explicit `Registry` that each category
  is built against. Assigning to them from outside, as tests do to reset them, is modelled
  only as building a fresh `Registry`.
- Floating-point behaviour of `price`: the price is only stored, so it is a `real`.
- The catalog loader (src/utils.py): reading a file and parsing JSON are I/O. The loader
  calls the two constructors once per record. Its sequence of category
  constructions is what `Models.BuildEach` models.
- The loader's console print-out (src/utils.py:24-34): I/O only.
- Price setter, product merge factory, product addition, text rendering,
  `add_product`, `middle_price`, iteration, orders and the product subtypes:
  src/models.py has no code for any of them. src/models.py ends after the `Category` constructor.
