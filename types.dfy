/** Shared entities of the storefront and the coach workflow (types.ts), and the
    fixture data the application starts from (constants.ts). */
module Types {

  datatype Option<+T> = None | Some(value: T)

  /** The outcome of a step that may throw: `Err` carries the thrown error's
      `message`, which may be the empty string. */
  datatype Result<+T> = Ok(value: T) | Err(message: string)

  /** A catalog entry. Prices are JavaScript numbers in the source; here they are
      integer cents. */
  datatype Product = Product(id: int, name: string, price: int, imageUrl: string, category: string)

  /** A cart line: a copy of the product taken when it was first added, plus
      the number of units. */
  datatype CartItem = CartItem(product: Product, quantity: int)

  /** A browser `File` as the components see it: its name, declared MIME type
      and size in bytes. */
  datatype LocalFile = LocalFile(name: string, mimeType: string, size: int)

  datatype TrainingFocus = TrainingFocus(title: string, points: seq<string>)

  /** One free-text entry per day of the week. */
  datatype TrainingSchedule = TrainingSchedule(
    monday: string, tuesday: string, wednesday: string, thursday: string,
    friday: string, saturday: string, sunday: string)

  /** The structured report the analysis service returns. The numbers are
      carried, never computed on, so they are kept as reals. */
  datatype AnalysisResult = AnalysisResult(
    strikeAccuracy: real,
    successfulTakedowns: int,
    avgStrikesPerMin: real,
    keyInsights: seq<string>,
    trainingFocus: TrainingFocus,
    trainingSchedule: TrainingSchedule)

  /** The coach page's phase (`AnalysisState`). */
  datatype Phase = Idle | Uploading | Analyzing | Success | Error

  // ---------------------------------------------------------------------------
  // Fixtures (constants.ts)
  // ---------------------------------------------------------------------------

  /** The eight products the store starts with, prices in cents. */
  const Catalog: seq<Product> := [
    Product(1, "The Natural - Vintage Tee", 4500,
            "https://placehold.co/600x600/1a202c/e53e3e?text=Fighter+Tee", "Apparel"),
    Product(2, "Signature Series Hoodie", 7500,
            "https://placehold.co/600x600/1a202c/e53e3e?text=Fighter+Hoodie", "Apparel"),
    Product(3, "Championship Legacy Hat", 3500,
            "https://placehold.co/600x600/1a202c/e53e3e?text=Fighter+Hat", "Accessories"),
    Product(4, "Signed Fight Poster (Limited Edition)", 15000,
            "https://placehold.co/600x600/1a202c/e53e3e?text=Signed+Poster", "Collectibles"),
    Product(5, "Iron Will Training Shorts", 5500,
            "https://placehold.co/600x600/1a202c/e53e3e?text=Training+Shorts", "Apparel"),
    Product(6, "Victory Rashguard", 6000,
            "https://placehold.co/600x600/1a202c/e53e3e?text=Rashguard", "Apparel"),
    Product(7, "Autographed Fighting Glove", 25000,
            "https://placehold.co/600x600/1a202c/e53e3e?text=Signed+Glove", "Collectibles"),
    Product(8, "Fighter Crest Mug", 2000,
            "https://placehold.co/600x600/1a202c/e53e3e?text=Fighter+Mug", "Accessories")
  ]

  const WeightClasses: seq<string> := [
    "Flyweight", "Bantamweight", "Featherweight", "Lightweight", "Welterweight",
    "Middleweight", "Light Heavyweight", "Heavyweight", "Strawweight (Women's)",
    "Flyweight (Women's)", "Bantamweight (Women's)", "Featherweight (Women's)"
  ]

  /** The weight class selected initially and after a reset. */
  const DefaultWeightClass: string := WeightClasses[3]

  /** The fighter name the application starts with and resets to. */
  const DefaultFighterName: string := "The Natural"
}
