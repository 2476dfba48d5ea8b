/**
 The listing card of `src/components/ui/ItemCard.tsx`: the defaults of its
 optional props, the link target, which badges and rating figures it shows,
 the owner avatar, and the local favourite flag. Numbers the card only
 prints are kept as they come (`real` for the rating).
 */
module ItemCard {
  import opened Wrappers
  import Ascii

  datatype Owner = Owner(name: string, image: Option<string>)

  /** The props as a caller passes them; `None` is an omitted (`undefined`) prop. */
  datatype Props = Props(
    id: string, title: string, price: int,
    currency: Option<string>, priceUnit: Option<string>,
    category: string, location: string,
    rating: Option<real>, reviewCount: Option<int>,
    image: string, owner: Option<Owner>,
    featured: Option<bool>, isNew: Option<bool>)

  const DefaultCurrency := "$"
  const DefaultPriceUnit := "day"
  const ItemsPrefix := "/items/"

  /** The props after the destructuring defaults. */
  datatype Settled = Settled(currency: string, priceUnit: string, rating: real, reviewCount: int, featured: bool, isNew: bool)

  /** Destructuring defaults apply to omitted props only; a passed value is kept as it is. */
  function Defaults(p: Props): (s: Settled)
    ensures p.currency.Some? ==> s.currency == p.currency.value
    ensures p.currency == None ==> s.currency == DefaultCurrency
    ensures p.priceUnit.Some? ==> s.priceUnit == p.priceUnit.value
    ensures p.priceUnit == None ==> s.priceUnit == DefaultPriceUnit
    ensures p.rating.Some? ==> s.rating == p.rating.value
    ensures p.rating == None ==> s.rating == 0.0
    ensures p.reviewCount.Some? ==> s.reviewCount == p.reviewCount.value
    ensures p.reviewCount == None ==> s.reviewCount == 0
    ensures s.featured <==> p.featured == Some(true)
    ensures s.isNew <==> p.isNew == Some(true)
  {
    Settled(p.currency.GetOr(DefaultCurrency), p.priceUnit.GetOr(DefaultPriceUnit),
            p.rating.GetOr(0.0), p.reviewCount.GetOr(0),
            p.featured.GetOr(false), p.isNew.GetOr(false))
  }

  /** The owner's avatar: the photo when its URL is truthy, otherwise the initial. */
  datatype Avatar = NoOwner | Photo(src: string) | Initial(text: string)

  /** `name.charAt(0).toUpperCase()`: the first character upper-cased, or the empty string. */
  function InitialOf(name: string): (t: string)
    ensures name == "" ==> t == ""
    ensures name != "" ==> t == [Ascii.ToUpper(name[0])]
  {
    if name == "" then "" else [Ascii.ToUpper(name[0])]
  }

  function AvatarOf(owner: Option<Owner>): (a: Avatar)
    ensures owner == None <==> a == NoOwner
    ensures a.Photo? <==> owner.Some? && Truthy(owner.value.image)
    ensures a.Photo? ==> a.src == owner.value.image.value
    ensures a.Initial? ==> a.text == InitialOf(owner.value.name)
  {
    match owner
    case None => NoOwner
    case Some(o) => if Truthy(o.image) then Photo(o.image.value) else Initial(InitialOf(o.name))
  }

  /**
   The avatar is never blank unless the owner's name is: a photo has a
   non-empty source, and an initial is one upper-case-or-other character,
   empty only for an empty name.
   */
  lemma AvatarNeverBlank(owner: Option<Owner>)
    ensures AvatarOf(owner).Photo? ==> AvatarOf(owner).src != ""
    ensures AvatarOf(owner).Initial? ==>
              |AvatarOf(owner).text| <= 1 &&
              (AvatarOf(owner).text == "" <==> owner.value.name == "") &&
              (AvatarOf(owner).text != "" ==> !Ascii.IsLower(AvatarOf(owner).text[0]))
  {
  }

  /** What the card renders. */
  datatype View = View(
    link: string,
    featuredBadge: bool, newBadge: bool, highlighted: bool,
    rating: Option<real>, reviewCount: Option<int>,
    currency: string, priceUnit: string,
    avatar: Avatar, heartFilled: bool)

  /** The card for `p` with the favourite flag `favorited`. */
  function Render(p: Props, favorited: bool): (v: View)
    ensures |v.link| == |ItemsPrefix| + |p.id|
    ensures v.link[..|ItemsPrefix|] == ItemsPrefix && v.link[|ItemsPrefix|..] == p.id
    ensures v.featuredBadge <==> Defaults(p).featured
    ensures v.highlighted <==> Defaults(p).featured
    ensures v.newBadge <==> Defaults(p).isNew
    ensures v.rating.Some? <==> Defaults(p).rating > 0.0
    ensures v.rating.Some? ==> v.rating.value == Defaults(p).rating
    ensures v.reviewCount.Some? <==> Defaults(p).rating > 0.0 && Defaults(p).reviewCount > 0
    ensures v.reviewCount.Some? ==> v.reviewCount.value == Defaults(p).reviewCount
    ensures v.heartFilled == favorited
  {
    var s := Defaults(p);
    View(ItemsPrefix + p.id,
         s.featured, s.isNew, s.featured,
         if s.rating > 0.0 then Some(s.rating) else None,
         if s.rating > 0.0 && s.reviewCount > 0 then Some(s.reviewCount) else None,
         s.currency, s.priceUnit,
         AvatarOf(p.owner), favorited)
  }

  /** `handleFavoriteClick`: flips the local flag. */
  function ToggleFavorite(favorited: bool): (f: bool)
    ensures f != favorited
  {
    !favorited
  }

  /** Two clicks on the heart restore the flag and the rendered card. */
  lemma ToggleTwice(p: Props, favorited: bool)
    ensures ToggleFavorite(ToggleFavorite(favorited)) == favorited
    ensures Render(p, ToggleFavorite(ToggleFavorite(favorited))) == Render(p, favorited)
  {
  }

  /** A card with every optional prop omitted: `$`, `/day`, no rating, no badges. */
  lemma BareCard(p: Props, favorited: bool)
    requires p.currency == None && p.priceUnit == None && p.rating == None
    requires p.reviewCount == None && p.featured == None && p.isNew == None
    ensures var v := Render(p, favorited);
            v.currency == "$" && v.priceUnit == "day" &&
            v.rating == None && v.reviewCount == None &&
            !v.featuredBadge && !v.newBadge && !v.highlighted
  {
  }

  /** A review count is never shown without a rating beside it. */
  lemma CountNeedsRating(p: Props, favorited: bool)
    ensures Render(p, favorited).reviewCount.Some? ==> Render(p, favorited).rating.Some?
  {
  }

  /** Two cards link to the same page exactly when they show the same item. */
  lemma LinkInjective(p: Props, q: Props, f: bool, g: bool)
    ensures Render(p, f).link == Render(q, g).link <==> p.id == q.id
  {
    var a, b := Render(p, f).link, Render(q, g).link;
    if a == b {
      assert a[|ItemsPrefix|..] == b[|ItemsPrefix|..];
    }
  }

  /** The initial of a lower-case name is its upper-case letter, and never more than one character. */
  lemma InitialShape(name: string)
    ensures |InitialOf(name)| <= 1
    ensures name != "" && Ascii.IsLower(name[0]) ==> Ascii.IsUpper(InitialOf(name)[0])
    ensures forall i :: 0 <= i < |InitialOf(name)| ==> !Ascii.IsLower(InitialOf(name)[i])
  {
  }
}
