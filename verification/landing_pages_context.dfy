/**
 * The saved-page store (src/contexts/LandingPagesContext.tsx): an ordered
 * list of landing pages, most recent first, that is written in full to one
 * browser-storage slot after every change and read back from it on start-up.
 */
module PageStore {
  import opened Wrappers
  import opened Text
  import opened Json
  import opened Model

  /** What the storage slot holds, seen through `JSON.parse`: the empty
      string, a text `JSON.parse` rejects, or a text it parses to a value. */
  datatype SlotText = Blank | Unparsable | Parsed(value: Value)

  /** The storage slot: `getItem` returns null when nothing was stored. */
  datatype Slot = Missing | Holds(text: SlotText)

  // ---------------------------------------------------------------------
  // Writing: what `JSON.stringify` makes of the list.
  // ---------------------------------------------------------------------

  /** A `Date` serialises through `toJSON`: its time value as text (the
      model writes decimal milliseconds), or `null` for the invalid date. */
  function EncodeDate(d: Date): (v: Value)
    ensures d.InvalidDate? <==> v == Null
    ensures d.At? ==> v.Str? && ParseInt(v.s) == Some(d.ms)
  {
    match d
    case At(ms) => IntRoundTrip(ms); Str(IntToText(ms))
    case InvalidDate => Null
  }

  function EncodeStrings(ss: seq<string>): seq<Value> {
    if ss == [] then [] else [Str(ss[0])] + EncodeStrings(ss[1..])
  }

  function EncodeFaqItem(item: FaqItem): Value {
    Obj(map["question" := Str(item.question), "answer" := Str(item.answer)])
  }

  function EncodeFaq(items: seq<FaqItem>): seq<Value> {
    if items == [] then [] else [EncodeFaqItem(items[0])] + EncodeFaq(items[1..])
  }

  function EncodeContent(c: Content): Value {
    Obj(map[
      "introduction" := Str(c.introduction),
      "whyUs" := Str(c.whyUs),
      "thingsToDo" := Str(c.thingsToDo),
      "faq" := Arr(EncodeFaq(c.faq))])
  }

  /** One record as `JSON.stringify` writes it: an object with exactly the
      record's seven fields, each under its own name. */
  function EncodePage(p: LandingPage): (v: Value)
    ensures v.Obj?
    ensures v.fields.Keys == {"id", "city", "state", "keywords", "tone", "createdAt", "content"}
    ensures v.fields["id"] == Str(p.id) && v.fields["city"] == Str(p.city)
    ensures v.fields["state"] == Str(p.state) && v.fields["tone"] == Str(p.tone)
    ensures v.fields["createdAt"] == EncodeDate(p.createdAt)
  {
    Obj(map[
      "id" := Str(p.id),
      "city" := Str(p.city),
      "state" := Str(p.state),
      "keywords" := Arr(EncodeStrings(p.keywords)),
      "tone" := Str(p.tone),
      "createdAt" := EncodeDate(p.createdAt),
      "content" := EncodeContent(p.content)])
  }

  /** The list as a JSON array: one element per record, in list order. */
  function EncodePages(ps: seq<LandingPage>): (vs: seq<Value>)
    ensures |vs| == |ps|
    ensures forall i :: 0 <= i < |ps| ==> vs[i] == EncodePage(ps[i])
  {
    if ps == [] then [] else [EncodePage(ps[0])] + EncodePages(ps[1..])
  }

  /** The slot after the persist effect has written the list `ps`. */
  function Save(ps: seq<LandingPage>): (s: Slot)
    ensures s.Holds? && s.text.Parsed? && s.text.value.Arr?
  {
    Holds(Parsed(Arr(EncodePages(ps))))
  }

  // ---------------------------------------------------------------------
  // Reading: the lazy initial state of the provider.
  // ---------------------------------------------------------------------

  /** `TimeClip`: a time value beyond the representable range is invalid. */
  function TimeClip(n: int): (d: Date)
    ensures d.At? <==> -MaxTime <= n <= MaxTime
    ensures d.At? ==> d.ms == n
  {
    if -MaxTime <= n <= MaxTime then At(n) else InvalidDate
  }

  /** `new Date(x)` for a field `x` that may be absent (`undefined`):
      text is parsed, null reads as 0, booleans as 0 or 1, numbers as
      milliseconds; anything else is the invalid date. */
  function DecodeDate(x: Option<Value>): (d: Date)
    ensures x.None? ==> d == InvalidDate
    ensures x == Some(Null) ==> d == At(0)
  {
    match x
    case None => InvalidDate
    case Some(Null) => At(0)
    case Some(Bool(b)) => At(if b then 1 else 0)
    case Some(Num(n)) => TimeClip(n)
    case Some(Str(s)) =>
      (match ParseInt(s)
       case Some(n) => TimeClip(n)
       case None => InvalidDate)
    case Some(_) => InvalidDate
  }

  function Field(f: map<string, Value>, key: string): Option<Value> {
    if key in f then Some(f[key]) else None
  }

  function StrField(f: map<string, Value>, key: string): Option<string> {
    if key in f && f[key].Str? then Some(f[key].s) else None
  }

  function DecodeStrings(vs: seq<Value>): (r: Option<seq<string>>)
    ensures r.Some? ==> |r.value| == |vs|
  {
    if vs == [] then Some([])
    else if !vs[0].Str? then None
    else
      match DecodeStrings(vs[1..])
      case Some(rest) => Some([vs[0].s] + rest)
      case None => None
  }

  function DecodeFaqItem(v: Value): Option<FaqItem> {
    if !v.Obj? then None
    else
      match (StrField(v.fields, "question"), StrField(v.fields, "answer"))
      case (Some(q), Some(a)) => Some(FaqItem(q, a))
      case _ => None
  }

  function DecodeFaq(vs: seq<Value>): (r: Option<seq<FaqItem>>)
    ensures r.Some? ==> |r.value| == |vs|
  {
    if vs == [] then Some([])
    else
      match (DecodeFaqItem(vs[0]), DecodeFaq(vs[1..]))
      case (Some(item), Some(rest)) => Some([item] + rest)
      case _ => None
  }

  function DecodeContent(v: Value): Option<Content> {
    if !v.Obj? then None
    else
      var f := v.fields;
      match (StrField(f, "introduction"), StrField(f, "whyUs"), StrField(f, "thingsToDo"), Field(f, "faq"))
      case (Some(intro), Some(why), Some(todo), Some(Arr(items))) =>
        (match DecodeFaq(items)
         case Some(faq) => Some(Content(intro, why, todo, faq))
         case None => None)
      case _ => None
  }

  /** One stored element with its `createdAt` turned back into a `Date`. */
  function DecodePage(v: Value): (r: Option<LandingPage>)
    ensures r.Some? ==> v.Obj?
    ensures r.Some? ==> StrField(v.fields, "id") == Some(r.value.id)
    ensures r.Some? ==> StrField(v.fields, "city") == Some(r.value.city)
    ensures r.Some? ==> StrField(v.fields, "state") == Some(r.value.state)
    ensures r.Some? ==> StrField(v.fields, "tone") == Some(r.value.tone)
    ensures r.Some? ==> r.value.createdAt == DecodeDate(Field(v.fields, "createdAt"))
  {
    if !v.Obj? then None
    else
      var f := v.fields;
      var createdAt := DecodeDate(Field(f, "createdAt"));
      match (StrField(f, "id"), StrField(f, "city"), StrField(f, "state"), Field(f, "keywords"), StrField(f, "tone"))
      case (Some(id), Some(city), Some(state), Some(Arr(ks)), Some(tone)) =>
        (match (DecodeStrings(ks), Field(f, "content"))
         case (Some(keywords), Some(c)) =>
           (match DecodeContent(c)
            case Some(content) => Some(LandingPage(id, city, state, keywords, tone, createdAt, content))
            case None => None)
         case _ => None)
      case _ => None
  }

  function DecodePages(vs: seq<Value>): (r: Option<seq<LandingPage>>)
    ensures r.Some? ==> |r.value| == |vs|
  {
    if vs == [] then Some([])
    else
      match (DecodePage(vs[0]), DecodePages(vs[1..]))
      case (Some(p), Some(rest)) => Some([p] + rest)
      case _ => None
  }

  /** The list the provider starts with. An absent or empty slot, a text
      that does not parse, a value that is not an array and an element that
      cannot be read all give the empty list; nothing is thrown. */
  function Load(slot: Slot): (r: seq<LandingPage>)
    ensures slot.Missing? || slot == Holds(Blank) || slot == Holds(Unparsable) ==> r == []
    ensures slot.Holds? && slot.text.Parsed? && !slot.text.value.Arr? ==> r == []
    ensures (slot.Holds? && slot.text.Parsed? && slot.text.value.Arr?
             && DecodePages(slot.text.value.items).Some?) ==> |r| == |slot.text.value.items|
  {
    match slot
    case Holds(Parsed(Arr(items))) =>
      (match DecodePages(items)
       case Some(ps) => ps
       case None => [])
    case _ => []
  }

  // ---------------------------------------------------------------------
  // The round trip.
  // ---------------------------------------------------------------------

  /** What a record looks like after a save and a load: an invalid date
      was written as `null` and comes back as the epoch. */
  function Revived(p: LandingPage): (q: LandingPage)
    ensures q.createdAt.At?
    ensures p.createdAt.At? ==> q == p
    ensures p.createdAt.InvalidDate? ==> q == p.(createdAt := At(0))
  {
    if p.createdAt.InvalidDate? then p.(createdAt := At(0)) else p
  }

  function RevivedAll(ps: seq<LandingPage>): (qs: seq<LandingPage>)
    ensures |qs| == |ps|
    ensures forall i :: 0 <= i < |ps| ==> qs[i] == Revived(ps[i])
  {
    if ps == [] then [] else [Revived(ps[0])] + RevivedAll(ps[1..])
  }

  predicate AllDatesValid(ps: seq<LandingPage>) {
    forall i :: 0 <= i < |ps| ==> ps[i].createdAt.At?
  }

  lemma DateRoundTrip(d: Date)
    ensures DecodeDate(Some(EncodeDate(d))) == if d.At? then d else At(0)
  {
    if d.At? {
      IntRoundTrip(d.ms);
    }
  }

  lemma {:induction false} StringsRoundTrip(ss: seq<string>)
    ensures DecodeStrings(EncodeStrings(ss)) == Some(ss)
  {
    if ss != [] {
      StringsRoundTrip(ss[1..]);
      assert EncodeStrings(ss)[1..] == EncodeStrings(ss[1..]);
      assert [ss[0]] + ss[1..] == ss;
    }
  }

  lemma {:induction false} FaqRoundTrip(items: seq<FaqItem>)
    ensures DecodeFaq(EncodeFaq(items)) == Some(items)
  {
    if items != [] {
      FaqRoundTrip(items[1..]);
      assert EncodeFaq(items)[1..] == EncodeFaq(items[1..]);
      assert [items[0]] + items[1..] == items;
    }
  }

  lemma ContentRoundTrip(c: Content)
    ensures DecodeContent(EncodeContent(c)) == Some(c)
  {
    FaqRoundTrip(c.faq);
  }

  lemma PageRoundTrip(p: LandingPage)
    ensures DecodePage(EncodePage(p)) == Some(Revived(p))
  {
    DateRoundTrip(p.createdAt);
    StringsRoundTrip(p.keywords);
    ContentRoundTrip(p.content);
  }

  lemma {:induction false} PagesRoundTrip(ps: seq<LandingPage>)
    ensures DecodePages(EncodePages(ps)) == Some(RevivedAll(ps))
  {
    if ps != [] {
      PageRoundTrip(ps[0]);
      PagesRoundTrip(ps[1..]);
      assert EncodePages(ps)[1..] == EncodePages(ps[1..]);
    }
  }

  /** Loading what was saved gives the same records in the same order, with
      each `createdAt` rebuilt as a `Date`; only an invalid date does not
      survive (it is written as `null` and read back as the epoch). */
  lemma LoadSave(ps: seq<LandingPage>)
    ensures Load(Save(ps)) == RevivedAll(ps)
    ensures AllDatesValid(ps) ==> Load(Save(ps)) == ps
  {
    PagesRoundTrip(ps);
    if AllDatesValid(ps) {
      assert RevivedAll(ps) == ps;
    }
  }

  // ---------------------------------------------------------------------
  // Lookup and removal on the list.
  // ---------------------------------------------------------------------

  /** `find(page => page.id === id)`: the first record with that id. */
  function Find(ps: seq<LandingPage>, id: string): (r: Option<LandingPage>)
    ensures r.None? <==> forall i :: 0 <= i < |ps| ==> ps[i].id != id
    ensures r.Some? ==> r.value.id == id
    ensures r.Some? ==> exists i :: (0 <= i < |ps| && ps[i] == r.value
                                     && forall j :: 0 <= j < i ==> ps[j].id != id)
  {
    if ps == [] then None
    else if ps[0].id == id then Some(ps[0])
    else
      var r := Find(ps[1..], id);
      assert r.Some? ==> exists i :: (0 <= i < |ps| && ps[i] == r.value
                                      && forall j :: 0 <= j < i ==> ps[j].id != id) by {
        if r.Some? {
          var i :| (0 <= i < |ps[1..]| && ps[1..][i] == r.value
                    && forall j :: 0 <= j < i ==> ps[1..][j].id != id);
          assert ps[i + 1] == r.value;
          assert forall j :: 0 <= j < i + 1 ==> ps[j].id != id by {
            forall j | 0 <= j < i + 1
              ensures ps[j].id != id
            {
              if j > 0 {
                assert ps[j] == ps[1..][j - 1];
              }
            }
          }
        }
      }
      r
  }

  /** `filter(page => page.id !== id)`. */
  function WithoutId(ps: seq<LandingPage>, id: string): (r: seq<LandingPage>)
    ensures |r| <= |ps|
    ensures forall i :: 0 <= i < |r| ==> r[i].id != id
    ensures forall p :: p in r <==> p in ps && p.id != id
    ensures (forall i :: 0 <= i < |ps| ==> ps[i].id != id) ==> r == ps
  {
    if ps == [] then []
    else if ps[0].id == id then WithoutId(ps[1..], id)
    else [ps[0]] + WithoutId(ps[1..], id)
  }

  /** Removal keeps the surviving records in their order: it works piece by
      piece over a split of the list. */
  lemma {:induction false} WithoutIdAppend(a: seq<LandingPage>, b: seq<LandingPage>, id: string)
    ensures WithoutId(a + b, id) == WithoutId(a, id) + WithoutId(b, id)
  {
    if a == [] {
      assert a + b == b;
    } else {
      assert (a + b)[1..] == a[1..] + b;
      WithoutIdAppend(a[1..], b, id);
    }
  }

  /** Removing one id does not change what a lookup of another id finds. */
  lemma {:induction false} FindWithoutOther(ps: seq<LandingPage>, id: string, other: string)
    requires other != id
    ensures Find(WithoutId(ps, id), other) == Find(ps, other)
  {
    if ps != [] {
      FindWithoutOther(ps[1..], id, other);
    }
  }

  /** Removing twice is removing once: a corollary of the contract of
      `WithoutId`, since nothing with the id is left to remove. */
  lemma WithoutIdIdempotent(ps: seq<LandingPage>, id: string)
    ensures WithoutId(WithoutId(ps, id), id) == WithoutId(ps, id)
  {
  }

  function Reverse<T>(xs: seq<T>): (r: seq<T>)
    ensures |r| == |xs|
  {
    if xs == [] then [] else Reverse(xs[1..]) + [xs[0]]
  }

  /** The list after adding the records `xs` one after another. */
  function AddedInTurn(ps: seq<LandingPage>, xs: seq<LandingPage>): (r: seq<LandingPage>)
    ensures |r| == |ps| + |xs|
    decreases |xs|
  {
    if xs == [] then ps else AddedInTurn([xs[0]] + ps, xs[1..])
  }

  /** Records come out in reverse order of insertion, ahead of the older ones. */
  lemma {:induction false} AddedInTurnReverses(ps: seq<LandingPage>, xs: seq<LandingPage>)
    ensures AddedInTurn(ps, xs) == Reverse(xs) + ps
    decreases |xs|
  {
    if xs != [] {
      AddedInTurnReverses([xs[0]] + ps, xs[1..]);
      assert Reverse(xs[1..]) + ([xs[0]] + ps) == Reverse(xs[1..]) + [xs[0]] + ps;
    }
  }

  // ---------------------------------------------------------------------
  // The provider's state.
  // ---------------------------------------------------------------------

  class Store {
    /** The `landingPages` state, most recent first. */
    var pages: seq<LandingPage>
    /** The `landingPages` storage slot. */
    var slot: Slot

    /** The persist effect has run for the current list. */
    ghost predicate Valid()
      reads this
    {
      slot == Save(pages)
    }

    /** Mounting the provider: the initial state is read from the slot, and
        the effect then writes that state back. */
    constructor Open(stored: Slot)
      ensures pages == Load(stored)
      ensures Valid()
    {
      pages := Load(stored);
      slot := Save(Load(stored));
    }

    /** The effect on `[landingPages]`: the whole list overwrites the slot. */
    method Persist()
      modifies this`slot
      ensures Valid()
    {
      slot := Save(pages);
    }

    /** `addLandingPage`: the record becomes the head of the list. */
    method Add(page: LandingPage)
      modifies this
      ensures pages == [page] + old(pages)
      ensures Valid()
      ensures Get(page.id) == Some(page)
    {
      pages := [page] + pages;
      Persist();
    }

    /** `removeLandingPage`: every record with that id goes, the rest keep
        their order; an unknown id leaves the list as it was. */
    method Remove(id: string)
      modifies this
      ensures pages == WithoutId(old(pages), id)
      ensures Valid()
      ensures Get(id) == None
      ensures (forall i :: 0 <= i < |old(pages)| ==> old(pages)[i].id != id) ==> pages == old(pages)
    {
      pages := WithoutId(pages, id);
      Persist();
    }

    /** `getLandingPage`: a lookup in the current list; it reads the state
        and changes nothing. */
    function Get(id: string): (r: Option<LandingPage>)
      reads this
      ensures r.None? <==> forall i :: 0 <= i < |pages| ==> pages[i].id != id
      ensures r.Some? ==> r.value.id == id
      ensures r.Some? ==> exists i :: (0 <= i < |pages| && pages[i] == r.value
                                       && forall j :: 0 <= j < i ==> pages[j].id != id)
    {
      Find(pages, id)
    }
  }
}
