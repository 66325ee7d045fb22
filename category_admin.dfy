/**
 * The category editor (app/admin/categories/page.tsx): slug derivation from
 * the name, the edit mapping, and the page's list/form state.
 */
module CategoryAdmin {
  import opened Wrappers
  import opened Strings
  import opened Seqs
  import opened AdminForms

  const CategoriesEndpoint: string := "/api/categories"
  const DeletedAlert: string := "✅ Đã xóa danh mục"
  const DeleteFailedAlert: string := "❌ Xóa danh mục thất bại"

  // -------------------------------------------------------------- the slug

  /** The characters `[a-z0-9-]` that survive the last replacement. */
  predicate IsSlugChar(c: char) {
    ('a' <= c <= 'z') || ('0' <= c <= '9') || c == '-'
  }

  predicate AllSlugChars(s: string) {
    forall i :: 0 <= i < |s| ==> IsSlugChar(s[i])
  }

  /** `replace(/\s+/g, "-")`: each maximal run of whitespace becomes one dash. */
  function DashSpaces(s: string): (r: string)
    ensures NoSpaces(r)
    decreases |s|
  {
    if s == [] then []
    else if IsSpace(s[0]) then "-" + DashSpaces(TrimStart(s[1..]))
    else [s[0]] + DashSpaces(s[1..])
  }

  predicate NoSpaces(s: string) {
    forall i :: 0 <= i < |s| ==> !IsSpace(s[i])
  }

  /** A whole run of whitespace, however long, turns into a single dash. */
  lemma {:induction false} RunBecomesOneDash(run: string, rest: string)
    requires run != [] && forall i :: 0 <= i < |run| ==> IsSpace(run[i])
    requires rest == [] || !IsSpace(rest[0])
    ensures DashSpaces(run + rest) == "-" + DashSpaces(rest)
  {
    assert (run + rest)[1..] == run[1..] + rest;
    SkipRun(run[1..], rest);
  }

  lemma {:induction false} SkipRun(run: string, rest: string)
    requires forall i :: 0 <= i < |run| ==> IsSpace(run[i])
    requires rest == [] || !IsSpace(rest[0])
    ensures TrimStart(run + rest) == rest
  {
    if run == [] {
      assert run + rest == rest;
    } else {
      assert (run + rest)[1..] == run[1..] + rest;
      SkipRun(run[1..], rest);
    }
  }

  /** `replace(/[^a-z0-9-]/g, "")`. */
  function KeepSlugChars(s: string): (r: string)
    ensures AllSlugChars(r)
    ensures IsSubseq(r, s)
    ensures AllSlugChars(s) ==> r == s
  {
    if s == [] then []
    else
      assert s == [s[0]] + s[1..];
      var tail := KeepSlugChars(s[1..]);
      if IsSlugChar(s[0]) then [s[0]] + tail
      else SubseqCons(tail, s[1..], s[0]); tail
  }

  /** The slug the name field derives: lower-case, dash the spaces, keep `[a-z0-9-]`. */
  function Slugify(name: string): (slug: string)
    ensures AllSlugChars(slug)
  {
    KeepSlugChars(DashSpaces(Lower(name)))
  }

  /** A string of slug characters is its own slug. */
  lemma SlugFixpoint(t: string)
    requires AllSlugChars(t)
    ensures Slugify(t) == t
  {
    assert Lower(t) == t;
    assert NoSpaces(t) by {
      forall i | 0 <= i < |t| ensures !IsSpace(t[i]) {
        assert IsSlugChar(t[i]);
      }
    }
    DashWord(t, "");
    assert t + "" == t;
  }

  /** Deriving a slug from a slug changes nothing. */
  lemma SlugifyIdempotent(name: string)
    ensures Slugify(Slugify(name)) == Slugify(name)
  {
    SlugFixpoint(Slugify(name));
  }

  /** Letters outside ASCII are dropped, not transliterated. */
  lemma SlugExample()
    ensures Slugify("Bánh Kem Dâu!") == "bnh-kem-du"
  {
    LowerExample();
    DashExample();
    KeepExample();
  }

  lemma LowerExample()
    ensures Lower("Bánh Kem Dâu!") == "bánh kem dâu!"
  {
  }

  lemma DashExample()
    ensures DashSpaces("bánh kem dâu!") == "bánh-kem-dâu!"
  {
    var tail := " " + "dâu!";
    var middle := " " + ("kem" + tail);
    DashPieces();
    DashWord("dâu!", "");
    RunBecomesOneDash(" ", "dâu!");
    DashWord("kem", tail);
    RunBecomesOneDash(" ", "kem" + tail);
    DashWord("bánh", middle);
  }

  lemma DashPieces()
    ensures "bánh kem dâu!" == "bánh" + (" " + ("kem" + (" " + "dâu!")))
    ensures "bánh-kem-dâu!" == "bánh" + ("-" + ("kem" + ("-" + "dâu!")))
    ensures NoSpaces("bánh") && NoSpaces("kem") && NoSpaces("dâu!")
    ensures "dâu!" + "" == "dâu!"
    ensures DashSpaces("") == ""
  {
  }

  lemma KeepExample()
    ensures KeepSlugChars("bánh-kem-dâu!") == "bnh-kem-du"
  {
    KeepPieces();
    KeepFirstWord();
    KeepMiddleWord();
    KeepLastWord();
    KeepAppend("-kem-", "dâu!");
    KeepAppend("bánh", "-kem-" + "dâu!");
  }

  lemma KeepPieces()
    ensures "bánh-kem-dâu!" == "bánh" + ("-kem-" + "dâu!")
    ensures "bnh-kem-du" == "bnh" + ("-kem-" + "du")
  {
  }

  lemma KeepFirstWord()
    ensures KeepSlugChars("bánh") == "bnh"
  {
  }
  lemma KeepMiddleWord()
    ensures KeepSlugChars("-kem-") == "-kem-"
  {
  }
  lemma KeepLastWord()
    ensures KeepSlugChars("dâu!") == "du"
  {
  }

  /** A word without whitespace passes through unchanged. */
  lemma {:induction false} DashWord(w: string, rest: string)
    requires NoSpaces(w)
    ensures DashSpaces(w + rest) == w + DashSpaces(rest)
  {
    if w == [] {
      assert w + rest == rest;
    } else {
      var s := w + rest;
      assert s[0] == w[0] && !IsSpace(s[0]);
      assert s[1..] == w[1..] + rest;
      assert DashSpaces(s) == [w[0]] + DashSpaces(w[1..] + rest);
      DashWord(w[1..], rest);
      assert w == [w[0]] + w[1..];
    }
  }

  /** The last replacement works character by character. */
  lemma {:induction false} KeepAppend(a: string, b: string)
    ensures KeepSlugChars(a + b) == KeepSlugChars(a) + KeepSlugChars(b)
  {
    if a == [] {
      assert a + b == b;
    } else {
      assert (a + b)[1..] == a[1..] + b;
      KeepAppend(a[1..], b);
    }
  }

  // ------------------------------------------------------------ the records

  datatype Category = Category(
    id: string, name: string, slug: string,
    description: Option<string>, image: Option<string>, isActive: bool)

  datatype CategoryForm = CategoryForm(
    name: string, slug: string, description: string, image: string, isActive: bool)

  /** The form's initial and reset value. */
  const EmptyForm: CategoryForm := CategoryForm("", "", "", "", true)

  /** `handleEdit`'s form for a category. */
  function EditForm(c: Category): (f: CategoryForm)
    ensures f.name == c.name && f.slug == c.slug && f.isActive == c.isActive
    ensures f.description == c.description.GetOr("")
    ensures f.image == c.image.GetOr("")
  {
    CategoryForm(c.name, c.slug, c.description.GetOr(""), c.image.GetOr(""), c.isActive)
  }

  /** Editing a category and submitting the form unchanged sends back its fields. */
  lemma EditFormKeepsPresentFields(c: Category)
    requires c.description.Some? && c.image.Some?
    ensures var f := EditForm(c);
      Category(c.id, f.name, f.slug, Some(f.description), Some(f.image), f.isActive) == c
  {
  }

  /** `prev.filter((c) => c._id !== id)`. */
  function RemoveById(cs: seq<Category>, id: string): (r: seq<Category>)
    ensures IsSubseq(r, cs)
    ensures forall c :: multiset(r)[c] == if c.id == id then 0 else multiset(cs)[c]
  {
    if cs == [] then []
    else
      assert cs == [cs[0]] + cs[1..];
      var tail := RemoveById(cs[1..], id);
      if cs[0].id != id then [cs[0]] + tail
      else SubseqCons(tail, cs[1..], cs[0]); tail
  }

  /** No entry carrying the id is left. */
  lemma RemoveByIdRemovesAll(cs: seq<Category>, id: string)
    ensures forall c :: c in RemoveById(cs, id) ==> c.id != id
  {
    forall c | c in RemoveById(cs, id) ensures c.id != id {
      assert multiset(RemoveById(cs, id))[c] > 0;
    }
  }

  // --------------------------------------------------------------- the page

  class CategoriesPage {
    var categories: seq<Category>
    var showForm: bool
    var editing: Option<Category>
    var form: CategoryForm
    var alerts: seq<string>

    constructor()
      ensures categories == [] && !showForm && editing.None? && form == EmptyForm && alerts == []
    {
      categories := [];
      showForm := false;
      editing := None;
      form := EmptyForm;
      alerts := [];
    }

    /** `fetchCategories`: the list is replaced only by a successful reply's data. */
    method FetchCategories(data: Option<seq<Category>>)
      modifies this`categories
      ensures categories == if data.Some? then data.value else old(categories)
    {
      if data.Some? {
        categories := data.value;
      }
    }

    /** Typing a name sets the name and re-derives the slug. */
    method OnNameChange(name: string)
      modifies this`form
      ensures form == old(form).(name := name, slug := Slugify(name))
    {
      form := form.(name := name, slug := Slugify(name));
    }

    /** Typing in the slug field stores the text as typed. */
    method OnSlugChange(slug: string)
      modifies this`form
      ensures form == old(form).(slug := slug)
    {
      form := form.(slug := slug);
    }

    /** The "add" button. */
    method OpenNew()
      modifies this`showForm, this`editing, this`form
      ensures showForm && editing.None? && form == EmptyForm
    {
      showForm := true;
      editing := None;
      form := EmptyForm;
    }

    /** The close button keeps what was typed. */
    method CloseForm()
      modifies this`showForm, this`editing
      ensures !showForm && editing.None?
    {
      showForm := false;
      editing := None;
    }

    method HandleEdit(c: Category)
      modifies this`showForm, this`editing, this`form
      ensures showForm && editing == Some(c) && form == EditForm(c)
    {
      editing := Some(c);
      form := EditForm(c);
      showForm := true;
    }

    /**
     * `handleSubmit`: sends the form to the submit target; a success closes and
     * resets the form (the list is refreshed by a separate fetch), a refusal
     * alerts, and an exception escapes with nothing changed.
     */
    method HandleSubmit(reply: Reply) returns (target: Target, body: CategoryForm)
      modifies this`showForm, this`editing, this`form, this`alerts
      ensures target == SubmitTarget(CategoriesEndpoint, if old(editing).Some? then Some(old(editing).value.id) else None)
      ensures body == old(form)
      ensures Succeeded(reply) ==>
        !showForm && editing.None? && form == EmptyForm && alerts == old(alerts)
      ensures reply.Answered? && !reply.success ==>
        showForm == old(showForm) && editing == old(editing) && form == old(form)
        && alerts == old(alerts) + [ErrorAlert(reply.error)]
      ensures reply.Threw? ==>
        showForm == old(showForm) && editing == old(editing) && form == old(form) && alerts == old(alerts)
    {
      target := SubmitTarget(CategoriesEndpoint, if editing.Some? then Some(editing.value.id) else None);
      body := form;
      match reply {
        case Threw(_) =>
        case Answered(success, error) =>
          if success {
            showForm := false;
            editing := None;
            form := EmptyForm;
          } else {
            alerts := alerts + [ErrorAlert(error)];
          }
      }
    }

    /**
     * `handleDelete`: nothing is sent unless confirmed; the entry leaves the
     * list only when the response is ok and reports success.
     */
    method HandleDelete(id: string, confirmed: bool, ok: bool, reply: Reply) returns (sent: Option<Target>)
      modifies this`categories, this`alerts
      ensures !confirmed ==> sent.None? && categories == old(categories) && alerts == old(alerts)
      ensures confirmed ==> sent == Some(DeleteTarget(CategoriesEndpoint, id))
      ensures confirmed && ok && Succeeded(reply) ==>
        categories == RemoveById(old(categories), id) && alerts == old(alerts) + [DeletedAlert]
      ensures confirmed && !(ok && Succeeded(reply)) ==>
        categories == old(categories) && alerts == old(alerts) + [DeleteFailedAlert]
    {
      if !confirmed {
        return None;
      }
      sent := Some(DeleteTarget(CategoriesEndpoint, id));
      if ok && Succeeded(reply) {
        categories := RemoveById(categories, id);
        alerts := alerts + [DeletedAlert];
      } else {
        alerts := alerts + [DeleteFailedAlert];
      }
    }
  }
}
