/**
 * What the three admin editors (categories, banners, promotions) share: the
 * request a submit or delete sends, and the replies those requests can get.
 */
module AdminForms {
  import opened Wrappers
  import Strings

  /** A request's HTTP verb and URL; the JSON body travels beside it. */
  datatype Target = Target(verb: string, url: string)

  /** How an editor's `fetch` + `res.json()` ends: an exception, or `{success, error}`. */
  datatype Reply = Threw(message: string) | Answered(success: bool, error: string)

  /** `data.success` of a reply that arrived. */
  predicate Succeeded(reply: Reply) {
    reply.Answered? && reply.success
  }

  /**
   * The submit target: PUT to the record's own URL while a record is being
   * edited, POST to the collection otherwise.
   */
  function SubmitTarget(endpoint: string, editingId: Option<string>): (t: Target)
    ensures t.verb == "PUT" <==> editingId.Some?
    ensures t.verb == "POST" <==> editingId.None?
    ensures Strings.StartsWith(t.url, endpoint)
    ensures editingId.None? ==> t.url == endpoint
    ensures editingId.Some? ==> |t.url| > |endpoint| && t.url[|endpoint|] == '/' && t.url[|endpoint| + 1..] == editingId.value
  {
    match editingId
    case None => Target("POST", endpoint)
    case Some(id) =>
      var url := endpoint + "/" + id;
      assert url[..|endpoint|] == endpoint;
      assert url[|endpoint| + 1..] == id;
      Target("PUT", url)
  }

  /** `DELETE` to the record's own URL. */
  function DeleteTarget(endpoint: string, id: string): (t: Target)
    ensures t.verb == "DELETE"
    ensures t.url == SubmitTarget(endpoint, Some(id)).url
  {
    Target("DELETE", endpoint + "/" + id)
  }

  /** Distinct records get distinct URLs. */
  lemma RecordUrlsDistinct(endpoint: string, a: string, b: string)
    requires a != b
    ensures SubmitTarget(endpoint, Some(a)).url != SubmitTarget(endpoint, Some(b)).url
  {
  }

  /** `"Lỗi: " + data.error`. */
  function ErrorAlert(error: string): string {
    "Lỗi: " + error
  }
}
