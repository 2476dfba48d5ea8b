/**
 The four-step listing wizard of `src/pages/CreateListing.tsx`: Details,
 Photos, Terms, Review. Each step offers its own inputs and buttons; Next is
 guarded per step; the image list supports append and remove-at-index; the
 review step lists the chosen rental conditions.
 */
module ListingWizard {
  import opened Wrappers
  import opened Notify
  import Ascii

  /** The rental conditions, in the order of the form's `conditions` object. */
  datatype Condition = IdRequired | DepositRequired | LocalPickupOnly | NoSmoking | NoPets

  const AllConditions: seq<Condition> := [IdRequired, DepositRequired, LocalPickupOnly, NoSmoking, NoPets]

  datatype Conditions = Conditions(idRequired: bool, depositRequired: bool, localPickupOnly: bool, noSmoking: bool, noPets: bool)

  /** The text fields of the form, by their `name`. */
  datatype Field = Title | Category | Description | Price | Location | AvailableFrom | AvailableTo

  datatype Form = Form(
    title: string, category: string, description: string, price: string,
    location: string, availableFrom: string, availableTo: string, conditions: Conditions)

  datatype Wizard = Wizard(step: int, images: seq<string>, form: Form)

  const NoConditions := Conditions(false, false, false, false, false)
  const EmptyForm := Form("", "", "", "", "", "", "", NoConditions)
  const Initial := Wizard(1, [], EmptyForm)

  const MissingTitle := Toast("Missing information", "Please provide a title for your listing", Destructive)
  const MissingImages := Toast("Missing images", "Please upload at least one image of your item", Destructive)
  const MissingTerms := Toast("Missing information", "Please provide price and location information", Destructive)
  const Created := Toast("Listing created successfully!", "Your item is now available for rent.", Default)
  const CreatedPath := "/items/new-item-id"
  const NoSpecialConditions := "No special conditions"

  function IsOn(c: Conditions, k: Condition): bool {
    match k
    case IdRequired => c.idRequired
    case DepositRequired => c.depositRequired
    case LocalPickupOnly => c.localPickupOnly
    case NoSmoking => c.noSmoking
    case NoPets => c.noPets
  }

  function Get(f: Form, k: Field): string {
    match k
    case Title => f.title
    case Category => f.category
    case Description => f.description
    case Price => f.price
    case Location => f.location
    case AvailableFrom => f.availableFrom
    case AvailableTo => f.availableTo
  }

  /** `handleInputChange` / `handleSelectChange`: only the named field changes. */
  function SetField(f: Form, k: Field, v: string): (f': Form)
    ensures Get(f', k) == v
    ensures forall j :: j != k ==> Get(f', j) == Get(f, j)
    ensures f'.conditions == f.conditions
  {
    match k
    case Title => f.(title := v)
    case Category => f.(category := v)
    case Description => f.(description := v)
    case Price => f.(price := v)
    case Location => f.(location := v)
    case AvailableFrom => f.(availableFrom := v)
    case AvailableTo => f.(availableTo := v)
  }

  /** `handleCheckboxChange`: only the named condition changes; no text field does. */
  function SetCondition(f: Form, k: Condition, on: bool): (f': Form)
    ensures IsOn(f'.conditions, k) == on
    ensures forall j :: j != k ==> IsOn(f'.conditions, j) == IsOn(f.conditions, j)
    ensures forall j :: Get(f', j) == Get(f, j)
  {
    var c := f.conditions;
    var c' := match k
      case IdRequired => c.(idRequired := on)
      case DepositRequired => c.(depositRequired := on)
      case LocalPickupOnly => c.(localPickupOnly := on)
      case NoSmoking => c.(noSmoking := on)
      case NoPets => c.(noPets := on);
    f.(conditions := c')
  }

  /** `handleImageUpload`: no file list changes nothing; otherwise the new images follow the old. */
  function Upload(images: seq<string>, files: Option<seq<string>>): (r: seq<string>)
    ensures files == None ==> r == images
    ensures files.Some? ==> |r| == |images| + |files.value|
    ensures files.Some? ==> r[..|images|] == images && r[|images|..] == files.value
  {
    match files
    case None => images
    case Some(fs) => images + fs
  }

  /** `Array.prototype.splice(start, 1)`, including its clamping of negative and large starts. */
  function Splice1(s: seq<string>, start: int): (r: seq<string>)
    ensures 0 <= start < |s| ==> r == s[..start] + s[start + 1..]
    ensures start >= |s| || |s| == 0 ==> r == s
    ensures -|s| <= start < 0 ==> r == s[..|s| + start] + s[|s| + start + 1..]
    ensures start < -|s| && |s| > 0 ==> r == s[1..]
  {
    var from := if start < 0 then (if |s| + start < 0 then 0 else |s| + start) else start;
    if from >= |s| then s else s[..from] + s[from + 1..]
  }

  /** `removeImage(i)` on a rendered index: exactly element `i` goes, the rest keep their order. */
  function RemoveImage(images: seq<string>, i: int): (r: seq<string>)
    requires 0 <= i < |images|
    ensures |r| == |images| - 1
    ensures forall j :: 0 <= j < i ==> r[j] == images[j]
    ensures forall j :: i <= j < |r| ==> r[j] == images[j + 1]
    ensures multiset(r) + multiset{images[i]} == multiset(images)
  {
    assert images == images[..i] + [images[i]] + images[i + 1..];
    Splice1(images, i)
  }

  /** The toast that blocks Next on the current step, if any. */
  function NextBlock(w: Wizard): (t: Option<Toast>)
    ensures w.step == 1 ==> (t.Some? <==> w.form.title == "")
    ensures w.step == 2 ==> (t.Some? <==> |w.images| == 0)
    ensures w.step == 3 ==> (t.Some? <==> w.form.price == "" || w.form.location == "")
    ensures w.step !in {1, 2, 3} ==> t == None
  {
    if w.step == 1 && w.form.title == "" then Some(MissingTitle)
    else if w.step == 2 && |w.images| == 0 then Some(MissingImages)
    else if w.step == 3 && (w.form.price == "" || w.form.location == "") then Some(MissingTerms)
    else None
  }

  /** `nextStep`: a blocked Next shows its toast and stays; otherwise the step advances by one. */
  function NextStep(w: Wizard): (r: (Wizard, Option<Toast>))
    ensures r.1 == NextBlock(w)
    ensures r.1.Some? ==> r.0 == w
    ensures r.1 == None ==> r.0 == w.(step := w.step + 1)
  {
    match NextBlock(w)
    case Some(t) => (w, Some(t))
    case None => (w.(step := w.step + 1), None)
  }

  /** `prevStep`: the step goes back by one, nothing else changes. */
  function PrevStep(w: Wizard): (w': Wizard)
    ensures w'.step == w.step - 1 && w'.images == w.images && w'.form == w.form
  {
    w.(step := w.step - 1)
  }

  /** One user interaction with the wizard. */
  datatype Action =
    | Next
    | Previous
    | Edit(field: Field, value: string)
    | Check(condition: Condition, on: bool)
    | AddImages(files: Option<seq<string>>)
    | Remove(index: int)

  /** The step on which each text field is rendered. */
  function FieldStep(k: Field): int {
    if k in {Title, Category, Description} then 1 else 3
  }

  /** Whether the current step renders the control that performs `a`. */
  predicate Offered(w: Wizard, a: Action): (b: bool)
    ensures w.step == 1 ==> (b <==> a.Next? || (a.Edit? && a.field in {Title, Category, Description}))
    ensures w.step == 2 ==> (b <==> a.Next? || a.Previous? || a.AddImages? || (a.Remove? && 0 <= a.index < |w.images|))
    ensures w.step == 3 ==> (b <==> a.Next? || a.Previous? || a.Check? || (a.Edit? && a.field !in {Title, Category, Description}))
    ensures w.step == 4 ==> (b <==> a.Previous?)
    ensures !(1 <= w.step <= 4) ==> !b
  {
    match a
    case Next => 1 <= w.step <= 3
    case Previous => 2 <= w.step <= 4
    case Edit(k, _) => w.step == FieldStep(k)
    case Check(_, _) => w.step == 3
    case AddImages(_) => w.step == 2
    case Remove(i) => w.step == 2 && 0 <= i < |w.images|
  }

  /** The wizard after `a`; a control the step does not render cannot be used. */
  function Apply(w: Wizard, a: Action): (w': Wizard)
    ensures !Offered(w, a) ==> w' == w
    ensures a.Next? && Offered(w, a) ==> w' == NextStep(w).0
    ensures a.Previous? && Offered(w, a) ==> w' == PrevStep(w)
    ensures !a.Next? && !a.Previous? ==> w'.step == w.step
  {
    if !Offered(w, a) then w
    else match a
      case Next => NextStep(w).0
      case Previous => PrevStep(w)
      case Edit(k, v) => w.(form := SetField(w.form, k, v))
      case Check(k, on) => w.(form := SetCondition(w.form, k, on))
      case AddImages(fs) => w.(images := Upload(w.images, fs))
      case Remove(i) => w.(images := RemoveImage(w.images, i))
  }

  function Run(w: Wizard, actions: seq<Action>): Wizard
    decreases |actions|
  {
    if actions == [] then w else Run(Apply(w, actions[0]), actions[1..])
  }

  /**
   What the wizard keeps: the step lies in [1,4], and every step past one
   has the data its Next guard demanded.
   */
  predicate Valid(w: Wizard) {
    && 1 <= w.step <= 4
    && (w.step >= 2 ==> w.form.title != "")
    && (w.step >= 3 ==> |w.images| > 0)
    && (w.step >= 4 ==> w.form.price != "" && w.form.location != "")
  }

  lemma InitialValid()
    ensures Valid(Initial) && Initial.step == 1
  {
  }

  /** One interaction keeps the wizard valid. */
  lemma ApplyValid(w: Wizard, a: Action)
    requires Valid(w)
    ensures Valid(Apply(w, a))
  {
  }

  /** Any sequence of interactions keeps the wizard valid. */
  lemma {:induction false} RunValid(w: Wizard, actions: seq<Action>)
    requires Valid(w)
    ensures Valid(Run(w, actions))
    decreases |actions|
  {
    if actions != [] {
      ApplyValid(w, actions[0]);
      RunValid(Apply(w, actions[0]), actions[1..]);
    }
  }

  /** Uploading one image and removing it again restores the list. */
  lemma UploadRemoveInverse(images: seq<string>, img: string)
    ensures RemoveImage(Upload(images, Some([img])), |images|) == images
  {
    var r := RemoveImage(Upload(images, Some([img])), |images|);
    assert |r| == |images|;
    assert forall j :: 0 <= j < |images| ==> r[j] == images[j];
  }

  /** The condition labels on the review step. */
  function ReviewLabel(k: Condition): (l: string)
    ensures l != ""
  {
    match k
    case IdRequired => "ID verification required"
    case DepositRequired => "Security deposit required"
    case LocalPickupOnly => "Local pickup only"
    case NoSmoking => "No smoking"
    case NoPets => "Not to be used around pets"
  }

  /** The labels of the conditions of `ks` that are on, in the order of `ks`. */
  function LabelsOn(c: Conditions, ks: seq<Condition>): (r: seq<string>)
    ensures |r| <= |ks|
    ensures forall k :: ReviewLabel(k) in r <==> k in ks && IsOn(c, k)
    ensures forall l :: l in r ==> exists k :: k in ks && l == ReviewLabel(k)
  {
    if ks == [] then []
    else (if IsOn(c, ks[0]) then [ReviewLabel(ks[0])] else []) + LabelsOn(c, ks[1..])
  }

  /** Distinct conditions have distinct labels, so the review row names each condition unambiguously. */
  lemma ReviewLabelInjective(j: Condition, k: Condition)
    ensures ReviewLabel(j) == ReviewLabel(k) <==> j == k
  {
    if j != k {
      assert ReviewLabel(j)[0] != ReviewLabel(k)[0] || ReviewLabel(j)[1] != ReviewLabel(k)[1] || |ReviewLabel(j)| != |ReviewLabel(k)|;
    }
  }

  /** The "Conditions" row of the review step. */
  datatype ConditionsView = Listed(labels: seq<string>) | NoneSpecial

  function ReviewConditions(c: Conditions): (v: ConditionsView)
    ensures v.NoneSpecial? <==> forall k :: !IsOn(c, k)
    ensures v.Listed? ==> v.labels != [] && v.labels == LabelsOn(c, AllConditions)
    ensures v.Listed? ==> forall k :: ReviewLabel(k) in v.labels <==> IsOn(c, k)
  {
    LabelsOnAll(c);
    if exists k :: IsOn(c, k) then Listed(LabelsOn(c, AllConditions)) else NoneSpecial
  }

  /** Over the full list of conditions, a label is listed exactly when its condition is on. */
  lemma LabelsOnAll(c: Conditions)
    ensures forall k :: ReviewLabel(k) in LabelsOn(c, AllConditions) <==> IsOn(c, k)
  {
    forall k ensures k in AllConditions {
      EveryCondition(k);
    }
  }

  lemma EveryCondition(k: Condition)
    ensures k in AllConditions
  {
  }

  /** The text of the review step's "Category" row: the stored value capitalised, or "Not selected". */
  function ShowCategory(category: string): (r: string)
    ensures category == "" ==> r == "Not selected"
    ensures category != "" ==> |r| == |category| && r[0] == Ascii.ToUpper(category[0]) && r[1..] == category[1..]
  {
    if category == "" then "Not selected" else [Ascii.ToUpper(category[0])] + category[1..]
  }

  const NoDates := "No specific dates"

  /** The review step's "Available" row. */
  function ShowDates(f: Form): (r: string)
    ensures f.availableFrom != "" && f.availableTo != "" ==> r == f.availableFrom + " to " + f.availableTo
    ensures f.availableFrom == "" || f.availableTo == "" ==> r == NoDates
  {
    if f.availableFrom != "" && f.availableTo != "" then f.availableFrom + " to " + f.availableTo
    else NoDates
  }

  /**
   The category row shows a category's menu name back exactly when that name
   has no capital after its first letter: the menu value is the lower-cased
   name, and the row capitalises only the first letter.
   */
  lemma {:induction false} CategoryRoundTrip(name: string)
    requires name != [] && Ascii.IsUpper(name[0])
    ensures ShowCategory(Ascii.Lower(name)) == name <==> forall i :: 1 <= i < |name| ==> !Ascii.IsUpper(name[i])
  {
    var r := ShowCategory(Ascii.Lower(name));
    if forall i :: 1 <= i < |name| ==> !Ascii.IsUpper(name[i]) {
      assert |r| == |name|;
      assert r[0] == name[0];
      forall i | 1 <= i < |name| ensures r[i] == name[i] {
        assert r[i] == Ascii.Lower(name)[i];
      }
    } else {
      var i :| 1 <= i < |name| && Ascii.IsUpper(name[i]);
      assert r[i] == Ascii.Lower(name)[i];
    }
  }

  /** A two-word category such as "Outdoor Gear" comes back with its second word in lower case. */
  lemma OutdoorGearShown()
    ensures ShowCategory(Ascii.Lower("Outdoor Gear")) != "Outdoor Gear"
  {
    CategoryRoundTrip("Outdoor Gear");
    assert Ascii.IsUpper("Outdoor Gear"[8]);
  }

  /** The "Available" row reads "No specific dates" exactly when a date is missing. */
  lemma ShowDatesIff(f: Form)
    ensures ShowDates(f) == NoDates <==> f.availableFrom == "" || f.availableTo == ""
  {
    if f.availableFrom != "" && f.availableTo != "" {
      var a, r := f.availableFrom, ShowDates(f);
      assert r[|a|] == ' ' && r[|a| + 1] == 't';
      NotNoDates(r, |a|);
    }
  }

  /** Text with a space followed by `t` is not the "No specific dates" fallback. */
  lemma NotNoDates(r: string, i: int)
    requires 0 <= i && i + 1 < |r| && r[i] == ' ' && r[i + 1] == 't'
    ensures r != NoDates
  {
  }

  /** `handleSubmit` on the review step: the success toast and the path it redirects to. */
  function Submit(w: Wizard, termsChecked: bool): (r: Option<(Toast, string)>)
    ensures r.Some? <==> w.step == 4 && termsChecked
    ensures r.Some? ==> r.value == (Created, CreatedPath)
  {
    if w.step == 4 && termsChecked then Some((Created, CreatedPath)) else None
  }

  /**
   Whatever the user did from the start, a listing submitted through the
   Create Listing button has a title, an image, a price and a location.
   */
  lemma SubmittedListingComplete(actions: seq<Action>, termsChecked: bool)
    requires Submit(Run(Initial, actions), termsChecked).Some?
    ensures var w := Run(Initial, actions);
            w.form.title != "" && |w.images| > 0 && w.form.price != "" && w.form.location != ""
  {
    RunValid(Initial, actions);
  }
}
