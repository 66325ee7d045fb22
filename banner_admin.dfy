/**
 * The banner editor (app/admin/banners/page.tsx): the form's reset and edit
 * values, the `order` text/number conversion, the position labels, and the
 * page's form state.
 */
module BannerAdmin {
  import opened Wrappers
  import Numbers
  import opened AdminForms

  const BannersEndpoint: string := "/api/banners"

  /** `"Lỗi kết nối: " + error.message`. */
  function ConnectionAlert(message: string): string {
    "Lỗi kết nối: " + message
  }

  /** The four places a banner can be shown. */
  const Positions: seq<string> := ["hero", "sidebar", "footer", "promotion"]

  datatype Banner = Banner(
    id: string, title: string, subtitle: Option<string>, description: Option<string>,
    image: string, link: Option<string>, position: string, isActive: bool, order: int)

  /** The form keeps every field as typed; `order` is the text of a number input. */
  datatype BannerForm = BannerForm(
    title: string, subtitle: string, description: string, image: string,
    link: string, position: string, isActive: bool, order: string)

  /** The JSON sent on submit: the form with `order` run through `parseInt` (`None` is `NaN`, sent as `null`). */
  datatype BannerBody = BannerBody(
    title: string, subtitle: string, description: string, image: string,
    link: string, position: string, isActive: bool, order: Option<int>)

  /** `resetForm`'s value, also the form's initial value. */
  const ResetForm: BannerForm := BannerForm("", "", "", "", "", "hero", true, "0")

  /** `handleEdit`'s form for a banner. */
  function EditForm(b: Banner): (f: BannerForm)
    ensures f.title == b.title && f.image == b.image
    ensures f.position == b.position && f.isActive == b.isActive
    ensures f.subtitle == b.subtitle.GetOr("")
    ensures f.description == b.description.GetOr("")
    ensures f.link == b.link.GetOr("")
    ensures f.order == Numbers.IntToString(b.order)
  {
    BannerForm(b.title, b.subtitle.GetOr(""), b.description.GetOr(""), b.image,
               b.link.GetOr(""), b.position, b.isActive, Numbers.IntToString(b.order))
  }

  /** `{...formData, order: parseInt(formData.order)}`. */
  function SubmitBody(f: BannerForm): (body: BannerBody)
    ensures body.order == Numbers.ParseInt(f.order)
    ensures body.title == f.title && body.subtitle == f.subtitle && body.description == f.description
    ensures body.image == f.image && body.link == f.link
    ensures body.position == f.position && body.isActive == f.isActive
  {
    BannerBody(f.title, f.subtitle, f.description, f.image, f.link, f.position, f.isActive,
               Numbers.ParseInt(f.order))
  }

  /**
   * Editing a banner and submitting without touching `order` sends the same
   * order back, for every order `Number#toString` writes without an exponent.
   */
  lemma OrderRoundTrip(b: Banner)
    requires -Numbers.PlainDecimalBound < b.order < Numbers.PlainDecimalBound
    ensures SubmitBody(EditForm(b)).order == Some(b.order)
  {
    Numbers.IntToStringRoundTrip(b.order);
  }

  /** A fresh form submits order 0. */
  lemma ResetFormOrderIsZero()
    ensures SubmitBody(ResetForm).order == Some(0)
  {
    Numbers.IntToStringRoundTrip(0);
    assert Numbers.IntToString(0) == "0";
  }

  /** `positionLabels`. */
  function PositionLabels(): (labels: map<string, string>)
    ensures labels.Keys == set p | p in Positions
    ensures forall p :: p in labels ==> labels[p] != ""
  {
    map["hero" := "🏠 Hero", "sidebar" := "📌 Sidebar", "footer" := "📍 Footer", "promotion" := "🎁 Promotion"]
  }

  /** The label cell: `positionLabels[banner.position]`, empty for an unknown position. */
  function PositionLabel(position: string): (shown: Option<string>)
    ensures shown.Some? <==> position in Positions
    ensures shown.Some? ==> shown.value == PositionLabels()[position]
  {
    if position in PositionLabels() then Some(PositionLabels()[position]) else None
  }

  class BannersPage {
    var banners: seq<Banner>
    var showForm: bool
    var editing: Option<Banner>
    var form: BannerForm
    var alerts: seq<string>

    constructor()
      ensures banners == [] && !showForm && editing.None? && form == ResetForm && alerts == []
    {
      banners := [];
      showForm := false;
      editing := None;
      form := ResetForm;
      alerts := [];
    }

    /** `fetchBanners`: failures are swallowed; only a successful reply replaces the list. */
    method FetchBanners(data: Option<seq<Banner>>)
      modifies this`banners
      ensures banners == if data.Some? then data.value else old(banners)
    {
      if data.Some? {
        banners := data.value;
      }
    }

    /** The "add" button. */
    method OpenNew()
      modifies this`showForm, this`editing, this`form
      ensures showForm && editing.None? && form == ResetForm
    {
      showForm := true;
      editing := None;
      form := ResetForm;
    }

    method CloseForm()
      modifies this`showForm, this`editing
      ensures !showForm && editing.None?
    {
      showForm := false;
      editing := None;
    }

    method HandleEdit(b: Banner)
      modifies this`showForm, this`editing, this`form
      ensures showForm && editing == Some(b) && form == EditForm(b)
    {
      editing := Some(b);
      form := EditForm(b);
      showForm := true;
    }

    /**
     * `handleSubmit`: a success closes and resets the form; a refusal or a
     * connection error only alerts, keeping the form open with what was typed.
     */
    method HandleSubmit(reply: Reply) returns (target: Target, body: BannerBody)
      modifies this`showForm, this`editing, this`form, this`alerts
      ensures target == SubmitTarget(BannersEndpoint, if old(editing).Some? then Some(old(editing).value.id) else None)
      ensures body == SubmitBody(old(form))
      ensures Succeeded(reply) ==>
        !showForm && editing.None? && form == ResetForm && alerts == old(alerts)
      ensures !Succeeded(reply) ==>
        showForm == old(showForm) && editing == old(editing) && form == old(form)
      ensures reply.Answered? && !reply.success ==> alerts == old(alerts) + [ErrorAlert(reply.error)]
      ensures reply.Threw? ==> alerts == old(alerts) + [ConnectionAlert(reply.message)]
    {
      body := SubmitBody(form);
      target := SubmitTarget(BannersEndpoint, if editing.Some? then Some(editing.value.id) else None);
      match reply {
        case Threw(message) =>
          alerts := alerts + [ConnectionAlert(message)];
        case Answered(success, error) =>
          if success {
            showForm := false;
            editing := None;
            form := ResetForm;
          } else {
            alerts := alerts + [ErrorAlert(error)];
          }
      }
    }

    /**
     * `handleDelete`: the list itself is only refreshed by the follow-up
     * fetch; a refusal alerts, an exception escapes.
     */
    method HandleDelete(id: string, confirmed: bool, reply: Reply) returns (sent: Option<Target>)
      modifies this`alerts
      ensures sent == if confirmed then Some(DeleteTarget(BannersEndpoint, id)) else None
      ensures alerts == if confirmed && reply.Answered? && !reply.success
        then old(alerts) + [ErrorAlert(reply.error)] else old(alerts)
    {
      if !confirmed {
        return None;
      }
      sent := Some(DeleteTarget(BannersEndpoint, id));
      if reply.Answered? && !reply.success {
        alerts := alerts + [ErrorAlert(reply.error)];
      }
    }
  }
}
