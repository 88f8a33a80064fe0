/**
 * The records the mock backend and the trader, file and product pages share, with their
 * partial-update ("patch") forms and the shallow merge `{ ...record, ...patch }`.
 */
module Entities {
  import opened Common

  /** A user role: the real API sends the numeric `Roles` enum, the mock login a string. */
  datatype Role = RoleNumber(n: int) | RoleText(s: string) | NoRole

  /** `Roles.SUPER_ADMIN` and `Roles.TRADER`. */
  const SuperAdmin: int := 1
  const TraderRole: int := 2

  /** The signed-in user kept by the session and in the `user` storage entry. */
  datatype User = User(id: string, name: string, email: string, role: Role)

  datatype Trader = Trader(
    id: string, traderId: string, name: string, email: string, phone: string, status: string,
    joinedDate: string, tradingTier: string, region: string, totalFiles: int)

  /** A partial trader: `Some` marks a key present in the object. */
  datatype TraderPatch = TraderPatch(
    id: Option<string>, traderId: Option<string>, name: Option<string>, email: Option<string>,
    phone: Option<string>, status: Option<string>, joinedDate: Option<string>,
    tradingTier: Option<string>, region: Option<string>, totalFiles: Option<int>)

  const EmptyTraderPatch := TraderPatch(None, None, None, None, None, None, None, None, None, None)

  /** `{ ...t, ...p }`: every key present in `p` wins. */
  function MergeTrader(t: Trader, p: TraderPatch): (r: Trader)
    ensures p == EmptyTraderPatch ==> r == t
    ensures p.id.None? ==> r.id == t.id
    ensures p.status.Some? ==> r.status == p.status.value
  {
    Trader(p.id.GetOr(t.id), p.traderId.GetOr(t.traderId), p.name.GetOr(t.name),
           p.email.GetOr(t.email), p.phone.GetOr(t.phone), p.status.GetOr(t.status),
           p.joinedDate.GetOr(t.joinedDate), p.tradingTier.GetOr(t.tradingTier),
           p.region.GetOr(t.region), p.totalFiles.GetOr(t.totalFiles))
  }

  function TraderKey(t: Trader): string { t.id }

  datatype FileRecord = FileRecord(
    id: string, number: int, fileName: string, createdDate: string, lastUpdatedDate: string,
    itemsCount: int, uploadedBy: string, security: string, fileLink: string, totalViews: int,
    status: string)

  function FileKey(f: FileRecord): string { f.id }

  datatype Product = Product(
    id: string, productId: string, productName: string, traderName: string, description: string,
    category: string, retailPrice: real, netPrice: real, quantity: int, createdDate: string)

  datatype ProductPatch = ProductPatch(
    id: Option<string>, productId: Option<string>, productName: Option<string>,
    traderName: Option<string>, description: Option<string>, category: Option<string>,
    retailPrice: Option<real>, netPrice: Option<real>, quantity: Option<int>,
    createdDate: Option<string>)

  const EmptyProductPatch := ProductPatch(None, None, None, None, None, None, None, None, None, None)

  /** `{ ...p, ...patch }`. */
  function MergeProduct(p: Product, patch: ProductPatch): (r: Product)
    ensures patch == EmptyProductPatch ==> r == p
    ensures patch.id.None? ==> r.id == p.id
  {
    Product(patch.id.GetOr(p.id), patch.productId.GetOr(p.productId),
            patch.productName.GetOr(p.productName), patch.traderName.GetOr(p.traderName),
            patch.description.GetOr(p.description), patch.category.GetOr(p.category),
            patch.retailPrice.GetOr(p.retailPrice), patch.netPrice.GetOr(p.netPrice),
            patch.quantity.GetOr(p.quantity), patch.createdDate.GetOr(p.createdDate))
  }

  function ProductKey(p: Product): string { p.id }

  /** The five traders the mock backend and the traders list start from. */
  function SeedTraders(): seq<Trader> {
    [ Trader("1", "TRD001", "John Smith", "john.smith@example.com", "+1 (555) 123-4567", "Active",
             "2023-05-15", "Gold", "New York", 12),
      Trader("2", "TRD002", "Sarah Johnson", "sarah.j@example.com", "+1 (555) 987-6543", "Active",
             "2023-06-20", "Silver", "California", 8),
      Trader("3", "TRD003", "Michael Brown", "m.brown@example.com", "+1 (555) 456-7890", "Inactive",
             "2023-07-10", "Basic", "Texas", 5),
      Trader("4", "TRD004", "Emily Davis", "emily.davis@example.com", "+1 (555) 321-0987", "Active",
             "2023-08-05", "Platinum", "Florida", 20),
      Trader("5", "TRD005", "Robert Wilson", "rob.w@example.com", "+1 (555) 654-3210", "Active",
             "2023-09-12", "Gold", "Washington", 15) ]
  }

  /** The five files the mock backend and the files page start from. */
  function SeedFiles(): seq<FileRecord> {
    [ FileRecord("f1", 1, "Product Catalog Q3.xlsx", "2023-10-15", "2023-10-15", 250, "John Smith",
                 "Protected", "https://example.com/file1", 42, "Active"),
      FileRecord("f2", 2, "Inventory List.csv", "2023-09-20", "2023-09-22", 180, "Sarah Johnson",
                 "Public", "https://example.com/file2", 28, "Active"),
      FileRecord("f3", 3, "Summer Products.xlsx", "2023-08-05", "2023-08-05", 320, "Michael Brown",
                 "Protected", "https://example.com/file3", 15, "Archived"),
      FileRecord("f4", 4, "Winter Collection.xlsx", "2023-11-01", "2023-11-01", 150, "Emily Davis",
                 "Protected", "https://example.com/file4", 8, "Active"),
      FileRecord("f5", 5, "Electronics Inventory.csv", "2023-07-12", "2023-10-30", 420, "Robert Wilson",
                 "Public", "https://example.com/file5", 65, "Active") ]
  }

  /** The five products the mock backend starts from. */
  function SeedProducts(): seq<Product> {
    [ Product("p1", "PRD001", "Wireless Headphones", "John Smith",
              "High-quality wireless headphones with noise cancellation", "Electronics",
              199.99, 159.99, 50, "2023-10-15"),
      Product("p2", "PRD002", "Smart Watch", "Sarah Johnson",
              "Feature-rich smartwatch with health tracking", "Electronics",
              299.99, 249.99, 30, "2023-09-20"),
      Product("p3", "PRD003", "Coffee Maker", "Michael Brown",
              "Programmable coffee maker with thermal carafe", "Home Appliances",
              89.99, 69.99, 25, "2023-08-05"),
      Product("p4", "PRD004", "Yoga Mat", "Emily Davis",
              "Non-slip eco-friendly yoga mat", "Fitness",
              29.99, 24.99, 100, "2023-11-01"),
      Product("p5", "PRD005", "Bluetooth Speaker", "Robert Wilson",
              "Portable waterproof Bluetooth speaker", "Electronics",
              79.99, 64.99, 40, "2023-07-12") ]
  }
}
