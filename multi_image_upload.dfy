/**
 * The gallery uploader (components/MultiImageUpload.tsx). The component does
 * not own its list: `value` is the parent's, and every change goes out through
 * `onChange`, recorded here as the sequence of lists it was called with.
 */
module MultiImageUpload {
  import Numbers

  const MaxFileBytes: int := 3 * 1024 * 1024
  const TooLargeAlert: string := "Một số file quá lớn! Vui lòng chọn file nhỏ hơn 3MB"

  /** One entry of `Promise.allSettled`'s result. */
  datatype Settled = Fulfilled(url: string) | Rejected(reason: string)

  /** The size check's loop: true when no selected file exceeds the limit. */
  method AllWithinLimit(sizes: seq<int>) returns (ok: bool)
    ensures ok <==> forall i :: 0 <= i < |sizes| ==> sizes[i] <= MaxFileBytes
  {
    var i := 0;
    while i < |sizes|
      invariant 0 <= i <= |sizes|
      invariant forall k :: 0 <= k < i ==> sizes[k] <= MaxFileBytes
    {
      if sizes[i] > MaxFileBytes {
        return false;
      }
      i := i + 1;
    }
    return true;
  }

  /** The fulfilled values, in selection order. */
  function SuccessUrls(results: seq<Settled>): (urls: seq<string>)
    ensures |urls| <= |results|
  {
    if results == [] then []
    else (if results[0].Fulfilled? then [results[0].url] else []) + SuccessUrls(results[1..])
  }

  /** The number of rejected entries. */
  function FailureCount(results: seq<Settled>): (n: nat)
    ensures n <= |results|
  {
    if results == [] then 0
    else (if results[0].Rejected? then 1 else 0) + FailureCount(results[1..])
  }

  /** Every result is either a URL or a failure. */
  lemma {:induction false} ResultsPartition(results: seq<Settled>)
    ensures |SuccessUrls(results)| + FailureCount(results) == |results|
  {
    if results != [] {
      ResultsPartition(results[1..]);
    }
  }

  /** Selection order is kept: the URLs of a concatenation are the concatenated URLs. */
  lemma {:induction false} SuccessUrlsAppend(a: seq<Settled>, b: seq<Settled>)
    ensures SuccessUrls(a + b) == SuccessUrls(a) + SuccessUrls(b)
  {
    if a == [] {
      assert a + b == b;
    } else {
      var ab := a + b;
      assert ab[0] == a[0];
      assert ab[1..] == a[1..] + b;
      var head := if a[0].Fulfilled? then [a[0].url] else [];
      assert SuccessUrls(ab) == head + SuccessUrls(a[1..] + b);
      assert SuccessUrls(a) == head + SuccessUrls(a[1..]);
      SuccessUrlsAppend(a[1..], b);
    }
  }

  /** `Có ${n} ảnh upload thất bại`. */
  function FailureAlert(n: nat): string {
    "Có " + Numbers.NatToString(n) + " ảnh upload thất bại"
  }

  /** `value.filter((_, i) => i !== index)`. */
  function RemoveAt(value: seq<string>, index: int): (r: seq<string>)
    ensures 0 <= index < |value| ==> r == value[..index] + value[index + 1..]
    ensures !(0 <= index < |value|) ==> r == value
  {
    if value == [] then []
    else if index == 0 then value[1..]
    else
      assert value == [value[0]] + value[1..];
      [value[0]] + RemoveAt(value[1..], index - 1)
  }

  class GalleryUpload {
    /** The `value` prop: the parent's current list of image URLs. */
    var value: seq<string>
    var uploading: bool
    /** The arguments of every `onChange` call so far. */
    var changes: seq<seq<string>>
    var alerts: seq<string>

    constructor(value: seq<string>)
      ensures this.value == value && !uploading && changes == [] && alerts == []
    {
      this.value := value;
      uploading := false;
      changes := [];
      alerts := [];
    }

    /**
     * `handleFileChange` for the selected files' sizes; `results` are the
     * settled uploads, one per file, in selection order.
     */
    method HandleFileChange(sizes: seq<int>, results: seq<Settled>)
      requires |results| == |sizes|
      modifies this`uploading, this`changes, this`alerts
      ensures !uploading
      ensures sizes == [] ==> changes == old(changes) && alerts == old(alerts)
      ensures sizes != [] && (exists i :: 0 <= i < |sizes| && sizes[i] > MaxFileBytes) ==>
        changes == old(changes) && alerts == old(alerts) + [TooLargeAlert]
      ensures sizes != [] && (forall i :: 0 <= i < |sizes| ==> sizes[i] <= MaxFileBytes) ==>
        && alerts == old(alerts) + (if FailureCount(results) > 0 then [FailureAlert(FailureCount(results))] else [])
        && changes == old(changes) + (if SuccessUrls(results) != [] then [value + SuccessUrls(results)] else [])
    {
      if sizes == [] {
        uploading := false;
        return;
      }
      var ok := AllWithinLimit(sizes);
      if !ok {
        alerts := alerts + [TooLargeAlert];
        uploading := false;
        return;
      }
      uploading := true;
      var successUrls := SuccessUrls(results);
      var errors := FailureCount(results);
      if errors > 0 {
        alerts := alerts + [FailureAlert(errors)];
      }
      if |successUrls| > 0 {
        changes := changes + [value + successUrls];
      }
      uploading := false;
    }

    /** The remove button of image `index`. */
    method RemoveImage(index: int)
      modifies this`changes
      ensures changes == old(changes) + [RemoveAt(value, index)]
    {
      changes := changes + [RemoveAt(value, index)];
    }

    /** The parent re-renders with a new `value`. */
    method ReceiveValue(v: seq<string>)
      modifies this`value
      ensures value == v
    {
      value := v;
    }
  }

  /** Removing an index keeps every other element, in order. */
  lemma RemoveAtKeepsOthers(value: seq<string>, index: int)
    requires 0 <= index < |value|
    ensures |RemoveAt(value, index)| == |value| - 1
    ensures forall k :: 0 <= k < index ==> RemoveAt(value, index)[k] == value[k]
    ensures forall k :: index <= k < |value| - 1 ==> RemoveAt(value, index)[k] == value[k + 1]
  {
  }
}
