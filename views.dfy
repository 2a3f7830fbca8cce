/**
 * The read-only screens: the order view decodes the four collections of the
 * order it shows (more strictly than the edit hook does), and the customer
 * credit view decides whether a stored agreement gets a download link.
 */
module Views {
  import opened Wrappers
  import opened Values
  import opened Drafts
  import opened OrderHooks

  // The order view

  /**
   * `Array.isArray(v) ? v : typeof v === 'string' ? JSON.parse(v) : []`.
   * None when JSON.parse throws. There is no `|| '[]'` fallback and no length
   * check, unlike the edit hook.
   */
  function ViewDecoded(v: Val, parse: string -> Option<Val>): (r: Option<Val>)
    ensures r.None? <==> v.Str? && parse(v.s).None?
    ensures r.Some? && !v.Str? ==> r.value.Arr?
  {
    if v.Arr? then Some(v)
    else if v.Str? then parse(v.s)
    else Some(Arr([]))
  }

  /** The object the view's load effect sets: the order with its collections decoded. */
  function ViewedOrder(order: Record, parse: string -> Option<Val>): Option<Record> {
    DecodeKeys(order, OrderCollections, v => ViewDecoded(v, parse))
  }

  /**
   * The view's state after the effect on `order`: the template while there is
   * no order, the decoded order otherwise; a throwing decode leaves it as it was.
   */
  function ViewLoaded(current: Record, order: Option<Record>, parse: string -> Option<Val>): (r: Record)
    ensures order.None? ==> r == current
    ensures order.Some? && ViewedOrder(order.value, parse).Some? ==> r == ViewedOrder(order.value, parse).value
    ensures order.Some? && ViewedOrder(order.value, parse).None? ==> r == current
  {
    match order
    case None => current
    case Some(o) =>
      match ViewedOrder(o, parse)
      case None => current
      case Some(t) => t
  }

  /** The view's load fails exactly when one of the collections is a string JSON rejects. */
  lemma ViewFailsOnlyOnBadStrings(order: Record, parse: string -> Option<Val>)
    ensures ViewedOrder(order, parse).None? <==>
              exists i :: 0 <= i < |OrderCollections| &&
                Get(order, OrderCollections[i]).Str? && parse(Get(order, OrderCollections[i]).s).None?
  {
    var decode := v => ViewDecoded(v, parse);
    assert forall i :: 0 <= i < |OrderCollections| ==>
             (decode(Get(order, OrderCollections[i])).None? <==>
              Get(order, OrderCollections[i]).Str? && parse(Get(order, OrderCollections[i]).s).None?);
  }

  /** Each decoded collection is the stored array, the decoded string, or `[]` for anything else. */
  lemma ViewedCollection(order: Record, parse: string -> Option<Val>, k: string)
    requires ViewedOrder(order, parse).Some?
    requires k in OrderCollections
    ensures var v := Get(order, k);
            Get(ViewedOrder(order, parse).value, k) ==
              if v.Arr? then v else if v.Str? then parse(v.s).value else Arr([])
  {
    DecodedAt(order, OrderCollections, v => ViewDecoded(v, parse), k);
  }

  /** Every field other than the four collections is shown as the order holds it. */
  lemma ViewedScalars(order: Record, parse: string -> Option<Val>, k: string)
    requires ViewedOrder(order, parse).Some?
    requires k !in OrderCollections
    ensures Get(ViewedOrder(order, parse).value, k) == Get(order, k)
  {
  }

  /**
   * An order with no stored collections at all shows as the edit hook loads
   * it, with four empty lists.
   */
  lemma {:induction false} ViewAgreesWithEditOnMissingCollections(order: Record, parse: string -> Option<Val>)
    requires ReadsEmptyArray(parse)
    requires forall i :: 0 <= i < |OrderCollections| ==> OrderCollections[i] !in order
    ensures ViewedOrder(order, parse).Some? && NormaliseKeys(order, OrderCollections, parse).Some?
    ensures ViewedOrder(order, parse) == NormaliseKeys(order, OrderCollections, parse)
  {
    var view := v => ViewDecoded(v, parse);
    var edit := v => Normalised(v, parse);
    forall i | 0 <= i < |OrderCollections|
      ensures view(Get(order, OrderCollections[i])) == Some(Arr([]))
      ensures edit(Get(order, OrderCollections[i])) == Some(Arr([]))
    {
      assert Get(order, OrderCollections[i]) == Undefined;
    }
    DecodeKeysAgree(order, OrderCollections, view, edit);
  }

  /**
   * Where the two loads part: an empty string is `[]` to the edit hook but
   * makes the view's JSON.parse throw, and a stored "5" is `[]` to the edit
   * hook but the number 5 to the view.
   */
  lemma ViewIsStricterThanEdit(parse: string -> Option<Val>)
    requires ReadsEmptyArray(parse)
    requires parse("").None?
    requires parse("5") == Some(Num(5))
    ensures Normalised(Str(""), parse) == Some(Arr([])) && ViewDecoded(Str(""), parse).None?
    ensures Normalised(Str("5"), parse) == Some(Arr([])) && ViewDecoded(Str("5"), parse) == Some(Num(5))
  {
    assert !HasPositiveLength(Num(5));
  }

  /** Orders whose collections are already arrays are shown unchanged. */
  lemma {:induction false} ViewedArraysUnchanged(order: Record, parse: string -> Option<Val>)
    requires forall i :: 0 <= i < |OrderCollections| ==> IsArrayAt(order, OrderCollections[i])
    ensures ViewedOrder(order, parse) == Some(order)
  {
    var decode := v => ViewDecoded(v, parse);
    var r := DecodeKeys(order, OrderCollections, decode);
    assert forall i :: 0 <= i < |OrderCollections| ==> decode(Get(order, OrderCollections[i])).Some?;
    assert r.Some?;
    assert (set i | 0 <= i < |OrderCollections| :: OrderCollections[i]) <= order.Keys;
    assert r.value.Keys == order.Keys;
    forall k | k in order
      ensures r.value[k] == order[k]
    {
      if k in OrderCollections {
        var i :| 0 <= i < |OrderCollections| && OrderCollections[i] == k;
        assert r.value[k] == decode(Get(order, k)).value;
      } else {
        assert Get(r.value, k) == Get(order, k);
      }
    }
    assert r.value == order;
  }

  // The credit view's download links

  /** An anchor: its target and the children the JSX places inside it. */
  datatype Link = Link(href: Val, children: seq<Val>)

  /**
   * The object `renderDownloadLink` inspects: a string is JSON-decoded (None
   * when JSON.parse throws), any other value is used as it is.
   */
  function FileObject(fileData: Val, parse: string -> Option<Val>): (r: Option<Val>)
    ensures r.None? <==> fileData.Str? && parse(fileData.s).None?
    ensures !fileData.Str? ==> r == Some(fileData)
  {
    if fileData.Str? then parse(fileData.s) else Some(fileData)
  }

  /**
   * `renderDownloadLink(fileData, label)`: nothing for a falsy value; for a
   * string JSON rejects, a link to the raw string reading "Download {label}";
   * otherwise a link to the object's `url` reading "Download {label}: {name}",
   * or nothing when it has no truthy `url`.
   */
  function RenderDownloadLink(fileData: Val, fileLabel: string, parse: string -> Option<Val>): (r: Option<Link>)
    ensures !Truthy(fileData) ==> r.None?
    ensures Truthy(fileData) && FileObject(fileData, parse).None? ==>
              r == Some(Link(fileData, [Str("Download "), Str(fileLabel)]))
    ensures Truthy(fileData) && FileObject(fileData, parse).Some? ==>
              var obj := FileObject(fileData, parse).value;
              r == if Truthy(Prop(obj, "url"))
                   then Some(Link(Prop(obj, "url"), [Str("Download "), Str(fileLabel), Str(": "), Prop(obj, "name")]))
                   else None
    ensures r.Some? ==> Truthy(r.value.href)
  {
    if !Truthy(fileData) then None
    else
      match FileObject(fileData, parse)
      case None => Some(Link(fileData, [Str("Download "), Str(fileLabel)]))
      case Some(obj) =>
        if Truthy(Prop(obj, "url")) then
          Some(Link(Prop(obj, "url"), [Str("Download "), Str(fileLabel), Str(": "), Prop(obj, "name")]))
        else None
  }

  /**
   * A link appears exactly for a truthy value that is either a string JSON
   * rejects or decodes to an object with a truthy `url`.
   */
  lemma LinkShownIff(fileData: Val, fileLabel: string, parse: string -> Option<Val>)
    ensures RenderDownloadLink(fileData, fileLabel, parse).Some? <==>
              Truthy(fileData) &&
              (FileObject(fileData, parse).None? || Truthy(Prop(FileObject(fileData, parse).value, "url")))
    ensures RenderDownloadLink(fileData, fileLabel, parse).Some? && !fileData.Str? ==>
              fileData.Obj? && RenderDownloadLink(fileData, fileLabel, parse).value.href == fileData.fields["url"]
  {
    if RenderDownloadLink(fileData, fileLabel, parse).Some? && !fileData.Str? {
      assert Truthy(Prop(fileData, "url"));
    }
  }

  /** A stored JSON file record links to its own url and names the file. */
  lemma StoredFileLinks(s: string, url: string, name: string, fileLabel: string, parse: string -> Option<Val>)
    requires s != "" && url != ""
    requires parse(s) == Some(Obj(map["url" := Str(url), "name" := Str(name)]))
    ensures RenderDownloadLink(Str(s), fileLabel, parse) ==
              Some(Link(Str(url), [Str("Download "), Str(fileLabel), Str(": "), Str(name)]))
  {
  }

  /**
   * A string that decodes to something without a `url`, such as "123" to the
   * number 123, shows no link at all, and neither does a File just picked in
   * the form.
   */
  lemma DecodedWithoutUrlShowsNothing(fileLabel: string, parse: string -> Option<Val>, fileName: string)
    requires parse("123") == Some(Num(123))
    ensures RenderDownloadLink(Str("123"), fileLabel, parse).None?
    ensures RenderDownloadLink(File(fileName), fileLabel, parse).None?
  {
  }
}
