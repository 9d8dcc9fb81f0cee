/**
 * The pricing page: the fare-rule editor, the new-promotion form and the
 * per-promotion toggles. Handlers return the store mutation they issue
 * (or none) together with the page's new form state.
 */
module AdminPricing {
  import opened Wrappers
  import opened Text
  import opened Seqs
  import opened AdminDomain

  // ------------------------------------------------------------- fare rules

  /** A fare rule set as a patch that carries every key. */
  function FullPatch(f: FareRule): FareRulePatch {
    FareRulePatch(Some(f.baseFare), Some(f.perKm), Some(f.perMinute),
      Some(f.studentDiscount), Some(f.workerDiscount), Some(f.gracePeriod),
      Some(f.noShowPenalty), Some(f.maxDetourPercentage))
  }

  /**
   * `handleSaveFareRules`: with edited rules present, save them all and
   * leave edit mode; before the first notification nothing happens.
   */
  function SaveFareRules(editRules: Option<FareRule>, editing: bool): (r: (Option<Mutation>, bool))
    ensures r.0.None? <==> editRules.None?
    ensures r.0.None? ==> r.1 == editing
    ensures r.0.Some? ==> !r.1 && r.0.value.UpdateFareRules?
    ensures forall f :: r.0.Some? ==> ApplyToFareRules(f, r.0.value) == editRules.value
  {
    if editRules.Some? then
      (Some(Mutation.UpdateFareRules(FullPatch(editRules.value))), false)
    else (None, editing)
  }

  // ---------------------------------------------------------- new promotion

  /** The new-promotion form; the discount field holds what `parseInt` made of the input. */
  datatype PromoForm = PromoForm(
    name: string, description: string, discount: JsInt,
    applicableTo: seq<ProfileType>, active: bool)

  /** The form's initial and reset value. */
  const EmptyPromoForm := PromoForm("", "", Int(0), [], true)

  /** Typing in the discount input: `parseInt(e.target.value)`. */
  function DiscountTyped(f: PromoForm, text: string): (g: PromoForm)
    ensures g.discount == ParseInt(text)
    ensures g.(discount := f.discount) == f
  {
    f.(discount := ParseInt(text))
  }

  /** JavaScript's `x <= 0`: every comparison with `NaN` is false. */
  predicate AtMostZero(x: JsInt) {
    x.Int? && x.value <= 0
  }

  /** The validation as written: empty name or description, `discount <= 0`, or no category. */
  predicate RejectedAsWritten(f: PromoForm) {
    f.name == "" || f.description == "" || AtMostZero(f.discount) || |f.applicableTo| == 0
  }

  /**
   * As written, a cleared discount input (`parseInt("")` is `NaN`) passes
   * the check, and the promotion would be stored with a `NaN` discount.
   */
  lemma NaNDiscountPassesValidation()
    ensures var f := DiscountTyped(PromoForm("Weekend", "Ten off", Int(0), [Student], true), "");
      f.discount == NaN && !RejectedAsWritten(f)
  {
  }

  /** The evidently intended validation: the discount must be a number above zero. */
  predicate Rejected(f: PromoForm) {
    f.name == "" || f.description == "" || !(f.discount.Int? && f.discount.value > 0) || |f.applicableTo| == 0
  }

  /** The two validations disagree exactly on an otherwise complete form whose discount is `NaN`. */
  lemma ValidationsDifferOnlyOnNaN(f: PromoForm)
    ensures RejectedAsWritten(f) ==> Rejected(f)
    ensures RejectedAsWritten(f) != Rejected(f)
        <==> f.discount.NaN? && f.name != "" && f.description != "" && |f.applicableTo| > 0
  {
  }

  /** What `handleAddPromotion` leaves behind. */
  datatype AddOutcome = AddOutcome(form: PromoForm, showAddPromo: bool, alerted: bool, draft: Option<PromotionDraft>)

  /**
   * `handleAddPromotion`, with the corrected validation: a rejected form
   * raises the alert and stays as it is; an accepted one is handed to
   * `addPromotion` field for field, the form is reset and closed.
   */
  function HandleAddPromotion(f: PromoForm, shown: bool): (o: AddOutcome)
    ensures o.draft.Some? <==> !Rejected(f)
    ensures o.draft.None? ==> o.form == f && o.showAddPromo == shown && o.alerted
    ensures o.draft.Some? ==> o.form == EmptyPromoForm && !o.showAddPromo && !o.alerted
    ensures o.draft.Some? ==> var d := o.draft.value;
      && d.name == f.name && d.description == f.description && Int(d.discount) == f.discount
      && d.applicableTo == f.applicableTo && d.active == f.active
      && d.name != "" && d.description != "" && d.discount > 0 && |d.applicableTo| > 0
  {
    if Rejected(f) then AddOutcome(f, shown, true, None)
    else
      AddOutcome(EmptyPromoForm, false, false,
        Some(PromotionDraft(f.name, f.description, f.discount.value, f.applicableTo, f.active)))
  }

  /** What `handleAddPromotion` as written leaves behind: the form values it hands to `addPromotion`, if any. */
  datatype SentOutcome = SentOutcome(form: PromoForm, showAddPromo: bool, alerted: bool, sent: Option<PromoForm>)

  /**
   * `handleAddPromotion` as written: the same handler on the written
   * validation, so the form's values (a `NaN` discount included) go to
   * `addPromotion`.
   */
  function HandleAddPromotionAsWritten(f: PromoForm, shown: bool): (o: SentOutcome)
    ensures o.sent.Some? <==> !RejectedAsWritten(f)
    ensures o.sent.None? ==> o.form == f && o.showAddPromo == shown && o.alerted
    ensures o.sent.Some? ==> o.sent.value == f && o.form == EmptyPromoForm && !o.showAddPromo && !o.alerted
  {
    if RejectedAsWritten(f) then SentOutcome(f, shown, true, None)
    else SentOutcome(EmptyPromoForm, false, false, Some(f))
  }

  /** As written, a complete form with a cleared discount is sent with a `NaN` discount and the form resets. */
  lemma AsWrittenHandlerSendsNaN(shown: bool)
    ensures var f := DiscountTyped(PromoForm("Weekend", "Ten off", Int(0), [Student], true), "");
      var o := HandleAddPromotionAsWritten(f, shown);
      && o.sent == Some(f) && f.discount == NaN
      && o.form == EmptyPromoForm && !o.alerted
      && HandleAddPromotion(f, shown).draft.None? && HandleAddPromotion(f, shown).alerted
  {
    NaNDiscountPassesValidation();
  }

  /** Whenever the discount is a number, the handler as written and the corrected one behave alike. */
  lemma HandlersAgreeOnNumbers(f: PromoForm, shown: bool)
    requires f.discount.Int?
    ensures var o := HandleAddPromotionAsWritten(f, shown);
      var c := HandleAddPromotion(f, shown);
      && o.form == c.form && o.showAddPromo == c.showAddPromo && o.alerted == c.alerted
      && (o.sent.Some? <==> c.draft.Some?)
      && (c.draft.Some? ==> o.sent == Some(PromoForm(c.draft.value.name, c.draft.value.description,
            Int(c.draft.value.discount), c.draft.value.applicableTo, c.draft.value.active)))
  {
    ValidationsDifferOnlyOnNaN(f);
  }

  /** An accepted form adds one promotion to the store, with a positive discount and no uses. */
  lemma AddedPromotionIsValid(st: Snapshot, f: PromoForm, shown: bool, now: nat)
    requires !Rejected(f)
    ensures var ps := Apply(st, Mutation.AddPromotion(HandleAddPromotion(f, shown).draft.value, now)).promotions;
      && |ps| == |st.promotions| + 1 && ps[..|st.promotions|] == st.promotions
      && ps[|st.promotions|].discount > 0 && ps[|st.promotions|].usageCount == 0
      && ps[|st.promotions|].name == f.name
  {
    var d := HandleAddPromotion(f, shown).draft.value;
    var ps := Apply(st, Mutation.AddPromotion(d, now)).promotions;
    assert ps == st.promotions + [NewPromotion(d, now)];
  }

  // ------------------------------------------------------------- categories

  predicate NoDuplicates<T(==)>(s: seq<T>) {
    forall i, j :: 0 <= i < j < |s| ==> s[i] != s[j]
  }

  function Other(c: ProfileType): ProfileType -> bool {
    (x: ProfileType) => x != c
  }

  /** The checkbox rule: drop the category when it is listed, else append it. */
  function ToggleCategory(cats: seq<ProfileType>, c: ProfileType): (r: seq<ProfileType>)
    ensures c in r <==> c !in cats
    ensures forall x :: x != c ==> (x in r <==> x in cats)
  {
    if c in cats then Filter(cats, Other(c)) else cats + [c]
  }

  /** Toggling keeps a list free of duplicates. */
  lemma ToggleKeepsNoDuplicates(cats: seq<ProfileType>, c: ProfileType)
    requires NoDuplicates(cats)
    ensures NoDuplicates(ToggleCategory(cats, c))
  {
    if c in cats {
      FilterKeepsNoDuplicates(cats, Other(c));
    }
  }

  lemma {:induction false} FilterKeepsNoDuplicates<T>(s: seq<T>, p: T -> bool)
    requires NoDuplicates(s)
    ensures NoDuplicates(Filter(s, p))
  {
    if |s| > 0 {
      FilterKeepsNoDuplicates(s[1..], p);
      var rest := Filter(s[1..], p);
      assert forall x :: x in rest ==> x in s[1..];
      assert s[0] !in s[1..];
    }
  }

  /** Filtering out one value removes exactly its occurrences from the multiset. */
  lemma {:induction false} FilterOutMultiset(s: seq<ProfileType>, c: ProfileType)
    ensures multiset(Filter(s, Other(c))) == multiset(s)[c := 0]
  {
    if |s| > 0 {
      FilterOutMultiset(s[1..], c);
      assert s == [s[0]] + s[1..];
    }
  }

  /** A category that was absent comes back out: toggling twice restores the list exactly. */
  lemma ToggleTwiceRestoresWhenAbsent(cats: seq<ProfileType>, c: ProfileType)
    requires c !in cats
    ensures ToggleCategory(ToggleCategory(cats, c), c) == cats
  {
    FilterAppend(cats, [c], Other(c));
    FilterAll(cats, Other(c));
    assert [c][1..] == [];
  }

  /**
   * A listed category on a duplicate-free list comes back at the end:
   * toggling twice restores the same categories, each once.
   */
  lemma ToggleTwiceKeepsCategories(cats: seq<ProfileType>, c: ProfileType)
    requires NoDuplicates(cats) && c in cats
    ensures multiset(ToggleCategory(ToggleCategory(cats, c), c)) == multiset(cats)
  {
    var rest := Filter(cats, Other(c));
    assert ToggleCategory(cats, c) == rest;
    assert c !in rest;
    assert ToggleCategory(rest, c) == rest + [c];
    FilterOutMultiset(cats, c);
    ListedOnce(cats, c);
    assert multiset(rest + [c]) == multiset(cats)[c := 0] + multiset{c};
  }

  /** On a list without duplicates a listed value occurs exactly once. */
  lemma ListedOnce(cats: seq<ProfileType>, c: ProfileType)
    requires NoDuplicates(cats) && c in cats
    ensures multiset(cats)[c] == 1
  {
    var i :| 0 <= i < |cats| && cats[i] == c;
    assert cats == cats[..i] + [c] + cats[i + 1..];
    assert c !in cats[..i] && c !in cats[i + 1..];
  }

  /** Toggling twice can reorder: a listed category moves to the end. */
  lemma ToggleTwiceCanReorder()
    ensures ToggleCategory(ToggleCategory([Student, Worker], Student), Student) == [Worker, Student]
  {
    assert Filter([Student, Worker], Other(Student)) == [Worker];
  }

  /** A patch that only sets `applicableTo`. */
  function CategoriesPatch(cats: seq<ProfileType>): PromotionPatch {
    PromotionPatch(None, None, None, None, Some(cats), None, None, None)
  }

  /** A patch that only sets `active`. */
  function ActivePatch(active: bool): PromotionPatch {
    PromotionPatch(None, None, None, None, None, Some(active), None, None)
  }

  /** The first promotion with that id, as `find` returns it. */
  function FindPromotion(ps: seq<Promotion>, id: string): (r: Option<Promotion>)
    ensures r.None? <==> forall p :: p in ps ==> p.id != id
    ensures r.Some? ==> r.value in ps && r.value.id == id
    ensures forall i :: 0 <= i < |ps| && ps[i].id == id && (forall j :: 0 <= j < i ==> ps[j].id != id) ==>
      r == Some(ps[i])
  {
    if |ps| == 0 then None
    else if ps[0].id == id then Some(ps[0])
    else FindPromotion(ps[1..], id)
  }

  /**
   * `handleCategoryToggleEdit`: the same rule on a stored promotion's list,
   * saved through `updatePromotion`; an unknown id issues no call.
   */
  function HandleCategoryToggleEdit(ps: seq<Promotion>, c: ProfileType, id: string): (m: Option<Mutation>)
    ensures m.None? <==> forall p :: p in ps ==> p.id != id
    ensures m.Some? ==> m.value == Mutation.UpdatePromotion(id, CategoriesPatch(ToggleCategory(FindPromotion(ps, id).value.applicableTo, c)))
  {
    match FindPromotion(ps, id)
    case None => None
    case Some(p) => Some(Mutation.UpdatePromotion(id, CategoriesPatch(ToggleCategory(p.applicableTo, c))))
  }

  /** Saving the toggled list changes only the categories of the promotions with that id. */
  lemma CategoryEditChangesOnlyCategories(st: Snapshot, c: ProfileType, id: string)
    requires exists p :: p in st.promotions && p.id == id
    ensures var m := HandleCategoryToggleEdit(st.promotions, c, id);
      var ps := Apply(st, m.value).promotions;
      && |ps| == |st.promotions|
      && forall i :: 0 <= i < |ps| ==>
        if st.promotions[i].id == id
        then ps[i] == st.promotions[i].(applicableTo := ToggleCategory(FindPromotion(st.promotions, id).value.applicableTo, c))
        else ps[i] == st.promotions[i]
  {
  }

  /** `handleTogglePromotion(id, active)`: store the negation of the shown flag. */
  function HandleTogglePromotion(id: string, active: bool): (m: Mutation)
    ensures m.UpdatePromotion? && m.promotionId == id && m.updates.active == Some(!active)
  {
    Mutation.UpdatePromotion(id, ActivePatch(!active))
  }

  /** Toggling a promotion shown with its current flag flips that flag and nothing else. */
  lemma TogglePromotionFlips(st: Snapshot, i: nat)
    requires i < |st.promotions|
    ensures var p := st.promotions[i];
      Apply(st, HandleTogglePromotion(p.id, p.active)).promotions[i] == p.(active := !p.active)
  {
  }

  /** `handleDeletePromotion(id)`. */
  function HandleDeletePromotion(id: string): (m: Mutation)
    ensures forall st :: forall p :: p in Apply(st, m).promotions <==> p in st.promotions && p.id != id
  {
    Mutation.DeletePromotion(id)
  }
}
