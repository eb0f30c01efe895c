/**
 * The saved landing-page record (src/models/LandingPage.ts) and the
 * JavaScript `Date` held in its `createdAt` field.
 */
module Model {

  /** Largest magnitude of a JavaScript time value, in milliseconds
      (100,000,000 days either side of the epoch). */
  const MaxTime: int := 8_640_000_000_000_000

  type TimeValue = n: int | -MaxTime <= n <= MaxTime

  /** A JavaScript `Date`: a time value in milliseconds since the epoch, or
      the invalid date (`NaN`). */
  datatype Date = At(ms: TimeValue) | InvalidDate

  datatype FaqItem = FaqItem(question: string, answer: string)

  /** The generated copy of a page. */
  datatype Content = Content(
    introduction: string,
    whyUs: string,
    thingsToDo: string,
    faq: seq<FaqItem>)

  datatype LandingPage = LandingPage(
    id: string,
    city: string,
    state: string,
    keywords: seq<string>,
    tone: string,
    createdAt: Date,
    content: Content)
}
