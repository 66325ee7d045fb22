/**
 * The promotion editor (app/admin/promotions/page.tsx): the form's reset and
 * edit values, the date prefix, the type and value labels, and the page's
 * form state.
 */
module PromotionAdmin {
  import opened Wrappers
  import Numbers
  import opened AdminForms

  const PromotionsEndpoint: string := "/api/promotions"
  const Percentage: string := "percentage"
  const PercentageLabel: string := "📊 Phần trăm"
  const AmountLabel: string := "💰 Số tiền"

  /** A promotion as listed; `discountType` is `"percentage"` or `"fixed"`, dates are ISO text. */
  datatype Promotion = Promotion(
    id: string, title: string, description: Option<string>,
    discountType: string, discountValue: int,
    startDate: string, endDate: string, isActive: bool)

  /** The form; the product and category lists hold ids. */
  datatype PromotionForm = PromotionForm(
    title: string, description: string, discountType: string, discountValue: string,
    startDate: string, endDate: string,
    products: seq<string>, categories: seq<string>, isActive: bool)

  /** `resetForm`'s value, also the form's initial value. */
  const ResetForm: PromotionForm := PromotionForm("", "", Percentage, "", "", "", [], [], true)

  /** `split("T")[0]`: the text before the first `T`, or all of it. */
  function DatePart(s: string): (d: string)
    ensures 'T' !in d
    ensures |d| <= |s| && d == s[..|d|]
    ensures |d| < |s| ==> s[|d|] == 'T'
  {
    if s == [] then []
    else if s[0] == 'T' then []
    else
      assert s == [s[0]] + s[1..];
      [s[0]] + DatePart(s[1..])
  }

  /** A date without a `T` is kept whole. */
  lemma DatePartWithoutT(s: string)
    requires 'T' !in s
    ensures DatePart(s) == s
  {
  }

  /** The date of an ISO timestamp is everything before its `T`. */
  lemma {:induction false} DatePartOfTimestamp(date: string, time: string)
    requires 'T' !in date
    ensures DatePart(date + "T" + time) == date
  {
    var s := date + "T" + time;
    assert s[..|date|] == date && s[|date|] == 'T';
  }

  /** Taking the date part twice changes nothing. */
  lemma DatePartIdempotent(s: string)
    ensures DatePart(DatePart(s)) == DatePart(s)
  {
    DatePartWithoutT(DatePart(s));
  }

  /** `handleEdit`'s form for a promotion. */
  function EditForm(p: Promotion): (f: PromotionForm)
    ensures f.title == p.title && f.discountType == p.discountType && f.isActive == p.isActive
    ensures f.description == p.description.GetOr("")
    ensures f.discountValue == Numbers.IntToString(p.discountValue)
    ensures f.startDate == DatePart(p.startDate) && f.endDate == DatePart(p.endDate)
    ensures f.products == [] && f.categories == []
  {
    PromotionForm(p.title, p.description.GetOr(""), p.discountType,
                  Numbers.IntToString(p.discountValue),
                  DatePart(p.startDate), DatePart(p.endDate), [], [], p.isActive)
  }

  /** The type cell. */
  function TypeLabel(discountType: string): (text: string)
    ensures text == PercentageLabel <==> discountType == Percentage
    ensures text == AmountLabel <==> discountType != Percentage
  {
    if discountType == Percentage then PercentageLabel else AmountLabel
  }

  /**
   * The value cell: the number followed by `%` for a percentage, `₫` and the
   * number in the `vi-VN` locale otherwise (`formatVi` is `toLocaleString`).
   */
  function ValueLabel(p: Promotion, formatVi: int -> string): (text: string)
    ensures p.discountType == Percentage ==>
      text == Numbers.IntToString(p.discountValue) + "%" && text[|text| - 1] == '%'
    ensures p.discountType != Percentage ==> text == "₫" + formatVi(p.discountValue) && text[0] == '₫'
  {
    if p.discountType == Percentage then Numbers.IntToString(p.discountValue) + "%"
    else "₫" + formatVi(p.discountValue)
  }

  class PromotionsPage {
    var promotions: seq<Promotion>
    var showForm: bool
    var editing: Option<Promotion>
    var form: PromotionForm
    var alerts: seq<string>

    constructor()
      ensures promotions == [] && !showForm && editing.None? && form == ResetForm && alerts == []
    {
      promotions := [];
      showForm := false;
      editing := None;
      form := ResetForm;
      alerts := [];
    }

    /** `fetchPromotions`: only a successful reply replaces the list. */
    method FetchPromotions(data: Option<seq<Promotion>>)
      modifies this`promotions
      ensures promotions == if data.Some? then data.value else old(promotions)
    {
      if data.Some? {
        promotions := data.value;
      }
    }

    /** The "add" button. */
    method OpenNew()
      modifies this`showForm, this`editing, this`form
      ensures showForm && editing.None? && form == ResetForm
    {
      showForm := true;
      editing := None;
      form := ResetForm;
    }

    method CloseForm()
      modifies this`showForm, this`editing
      ensures !showForm && editing.None?
    {
      showForm := false;
      editing := None;
    }

    method HandleEdit(p: Promotion)
      modifies this`showForm, this`editing, this`form
      ensures showForm && editing == Some(p) && form == EditForm(p)
    {
      editing := Some(p);
      form := EditForm(p);
      showForm := true;
    }

    /**
     * `handleSubmit`: a success closes and resets the form, a refusal alerts,
     * and an exception escapes with nothing changed.
     */
    method HandleSubmit(reply: Reply) returns (target: Target, body: PromotionForm)
      modifies this`showForm, this`editing, this`form, this`alerts
      ensures target == SubmitTarget(PromotionsEndpoint, if old(editing).Some? then Some(old(editing).value.id) else None)
      ensures body == old(form)
      ensures Succeeded(reply) ==>
        !showForm && editing.None? && form == ResetForm && alerts == old(alerts)
      ensures !Succeeded(reply) ==>
        showForm == old(showForm) && editing == old(editing) && form == old(form)
      ensures alerts == if reply.Answered? && !reply.success
        then old(alerts) + [ErrorAlert(reply.error)] else old(alerts)
    {
      target := SubmitTarget(PromotionsEndpoint, if editing.Some? then Some(editing.value.id) else None);
      body := form;
      match reply {
        case Threw(_) =>
        case Answered(success, error) =>
          if success {
            showForm := false;
            editing := None;
            form := ResetForm;
          } else {
            alerts := alerts + [ErrorAlert(error)];
          }
      }
    }

    /** `handleDelete`: the list is refreshed by the follow-up fetch; a refusal alerts. */
    method HandleDelete(id: string, confirmed: bool, reply: Reply) returns (sent: Option<Target>)
      modifies this`alerts
      ensures sent == if confirmed then Some(DeleteTarget(PromotionsEndpoint, id)) else None
      ensures alerts == if confirmed && reply.Answered? && !reply.success
        then old(alerts) + [ErrorAlert(reply.error)] else old(alerts)
    {
      if !confirmed {
        return None;
      }
      sent := Some(DeleteTarget(PromotionsEndpoint, id));
      if reply.Answered? && !reply.success {
        alerts := alerts + [ErrorAlert(reply.error)];
      }
    }
  }
}
