/**
 * The data part of `showDownloadOptions`: the download entries the page
 * lists for a response, without the markup around them.
 */
module Presenter {
  import opened Wrappers
  import opened Text
  import opened Platforms
  import opened Client

  /** One listed entry: its title, the line under it, and the link target if it has a link. */
  datatype DownloadOption = DownloadOption(title: string, note: string, href: Option<string>)

  /** `${v}` for a field that may be absent. */
  function Interpolated(v: Option<string>): string
  {
    if v.Some? then v.value else "undefined"
  }

  /** `v || fallback`: the empty string and an absent field both give the fallback. */
  function OrElse(v: Option<string>, fallback: string): (r: string)
    ensures fallback != "" ==> r != ""
    ensures v.Some? && v.value != "" ==> r == v.value
    ensures v.None? || v.value == "" ==> r == fallback
  {
    if v.Some? && v.value != "" then v.value else fallback
  }

  /** `name.charAt(0).toUpperCase() + name.slice(1)` for a name written in ASCII. */
  function Capitalized(name: string): (r: string)
    ensures |r| == |name|
    ensures name != [] ==> r[0] == Upper(name[0]) && r[1..] == name[1..]
  {
    if name == [] then [] else [Upper(name[0])] + name[1..]
  }

  /** The single entry for a `redirect` or `stream` response. */
  function DirectOption(platform: Platform, url: Option<string>): DownloadOption
  {
    DownloadOption(Capitalized(Name(platform)) + " Video", "Click to download", Some(Interpolated(url)))
  }

  /** The entry for item `index` (counted from 0) of a `picker` response. */
  function PickerOption(index: nat, item: PickerItem): DownloadOption
    requires item.PickerItem?
  {
    DownloadOption("Media " + Decimal(index + 1), OrElse(item.mediaType, "Video"), Some(Interpolated(item.url)))
  }

  /** The entry shown for any other response. */
  const FallbackOption := DownloadOption("Download Available", "Response format may vary", None)

  /** No element of the array is `null`, so `item.type` and `item.url` can be read for each. */
  predicate Readable(items: seq<PickerItem>)
  {
    forall i :: 0 <= i < |items| ==> items[i].PickerItem?
  }

  /** The entries for picker items numbered from `start` on. */
  function PickerOptions(items: seq<PickerItem>, start: nat): seq<DownloadOption>
    requires Readable(items)
  {
    if items == [] then [] else [PickerOption(start, items[0])] + PickerOptions(items[1..], start + 1)
  }

  /** One entry per item, in the items' order, each numbered by its position. */
  lemma {:induction false} PickerOptionsAt(items: seq<PickerItem>, start: nat)
    requires Readable(items)
    ensures |PickerOptions(items, start)| == |items|
    ensures forall i :: 0 <= i < |items| ==> PickerOptions(items, start)[i] == PickerOption(start + i, items[i])
  {
    if items != [] {
      PickerOptionsAt(items[1..], start + 1);
      forall i | 1 <= i < |items|
        ensures PickerOptions(items, start)[i] == PickerOption(start + i, items[i])
      {
        assert items[1..][i - 1] == items[i];
      }
    }
  }

  /** What `downloadData.picker.forEach` throws when `picker` is absent (V8's wording). */
  const UndefinedPickerError := ErrorObject(true, "TypeError", "Cannot read properties of undefined (reading 'forEach')", None)
  /** What it throws when `picker` is `null`. */
  const NullPickerError := ErrorObject(true, "TypeError", "Cannot read properties of null (reading 'forEach')", None)
  /** What it throws when `picker` is some other value than an array, which has no `forEach`. */
  const NotArrayError := ErrorObject(true, "TypeError", "downloadData.picker.forEach is not a function", None)
  /** What reading `item.type` throws for a `null` element. */
  const NullItemError := ErrorObject(true, "TypeError", "Cannot read properties of null (reading 'type')", None)

  /**
   * The entries for a response, or the `TypeError` that `showDownloadOptions`
   * throws: for a `picker` response whose `picker` is not an array, or has
   * a `null` element.
   */
  function Present(data: ApiResponse, platform: Platform): Result<seq<DownloadOption>, Thrown>
  {
    if data.status == Some("redirect") || data.status == Some("stream") then
      Success([DirectOption(platform, data.url)])
    else if data.status == Some("picker") then
      match data.picker
      case NoPicker => Failure(UndefinedPickerError)
      case NullPicker => Failure(NullPickerError)
      case NotArray => Failure(NotArrayError)
      case Items(items) =>
        if Readable(items) then Success(PickerOptions(items, 0)) else Failure(NullItemError)
    else
      Success([FallbackOption])
  }

  /**
   * `redirect` and `stream` give one link, to the response's `url`,
   * titled with the capitalised platform name and " Video".
   */
  lemma PresentDirect(data: ApiResponse, platform: Platform)
    requires data.status == Some("redirect") || data.status == Some("stream")
    ensures Present(data, platform).Success? && |Present(data, platform).value| == 1
    ensures var o := Present(data, platform).value[0];
      o.href == Some(Interpolated(data.url)) && o.title == Capitalized(Name(platform)) + " Video"
      && (data.url.Some? ==> o.href == data.url)
  {
  }

  /**
   * `picker` gives one link per item, in order: titled "Media " and its
   * 1-based position, linking to the item's `url`, noting its `type` or
   * "Video"; no two of the labels are the same.
   */
  lemma PresentPicker(data: ApiResponse, platform: Platform)
    requires data.status == Some("picker") && data.picker.Items? && Readable(data.picker.items)
    ensures Present(data, platform).Success?
    ensures var opts, items := Present(data, platform).value, data.picker.items;
      |opts| == |items|
      && (forall i :: 0 <= i < |items| ==>
            opts[i].title == "Media " + Decimal(i + 1)
            && opts[i].href == Some(Interpolated(items[i].url))
            && opts[i].note == OrElse(items[i].mediaType, "Video"))
      && (forall i, j :: 0 <= i < j < |items| ==> opts[i].title != opts[j].title)
  {
    var items := data.picker.items;
    PickerOptionsAt(items, 0);
    var opts := Present(data, platform).value;
    forall i, j | 0 <= i < j < |items| ensures opts[i].title != opts[j].title {
      if opts[i].title == opts[j].title {
        assert Decimal(i + 1) == opts[i].title[6..];
        assert Decimal(j + 1) == opts[j].title[6..];
        DecimalInjective(i + 1, j + 1);
      }
    }
  }

  /** Any other status gives the one fallback entry, which has no link. */
  lemma PresentFallback(data: ApiResponse, platform: Platform)
    requires data.status != Some("redirect") && data.status != Some("stream") && data.status != Some("picker")
    ensures Present(data, platform) == Success([FallbackOption])
    ensures Present(data, platform).value[0].href.None?
  {
  }

  /**
   * Presenting throws only for a `picker` response whose `picker` is not an
   * array or has a `null` element, and what it throws is a `TypeError`.
   */
  lemma PresentFailsOnlyOnBadPicker(data: ApiResponse, platform: Platform)
    ensures Present(data, platform).Failure?
      <==> data.status == Some("picker") && !(data.picker.Items? && Readable(data.picker.items))
    ensures Present(data, platform).Failure? ==>
      Present(data, platform).error.ErrorObject? && Present(data, platform).error.isTypeError
  {
  }

  /**
   * Which `TypeError` a `picker` response throws: reading `forEach` of an
   * absent or `null` array, calling a `forEach` that is not there, or
   * reading `type` of a `null` element. A `null` element anywhere fails
   * the whole list, even after readable ones.
   */
  lemma PickerErrors(data: ApiResponse, platform: Platform)
    requires data.status == Some("picker")
    ensures data.picker == NoPicker ==> Present(data, platform) == Failure(UndefinedPickerError)
    ensures data.picker == NullPicker ==> Present(data, platform) == Failure(NullPickerError)
    ensures data.picker == NotArray ==> Present(data, platform) == Failure(NotArrayError)
    ensures data.picker.Items? && (exists i :: 0 <= i < |data.picker.items| && data.picker.items[i] == NullItem)
      ==> Present(data, platform) == Failure(NullItemError)
  {
  }

  /** The mocked redirect of the end-to-end test yields its one link. */
  lemma EndToEndRedirect()
    ensures Present(ApiResponse(Some("redirect"), Some("https://cdn.example/video.mp4"), NoPicker, None), YouTube)
      == Success([DownloadOption("Youtube Video", "Click to download", Some("https://cdn.example/video.mp4"))])
  {
    assert Upper('y') == 'Y';
    assert Capitalized("youtube") == "Youtube";
    assert "Youtube" + " Video" == "Youtube Video";
  }

  /** A picker of two items, the second typed "image", gives "Media 1" (a Video) and "Media 2" (an image). */
  lemma TwoItemPicker()
    ensures Present(ApiResponse(Some("picker"), None,
                                Items([PickerItem(Some("a"), None), PickerItem(Some("b"), Some("image"))]), None),
                    Twitter)
      == Success([DownloadOption("Media 1", "Video", Some("a")), DownloadOption("Media 2", "image", Some("b"))])
  {
    var items := [PickerItem(Some("a"), None), PickerItem(Some("b"), Some("image"))];
    assert items[1..][1..] == [];
    assert Decimal(1) == "1" && Decimal(2) == "2";
    assert "Media " + "1" == "Media 1" && "Media " + "2" == "Media 2";
    assert PickerOptions(items[1..][1..], 2) == [];
    assert PickerOptions(items[1..], 1) == [DownloadOption("Media 2", "image", Some("b"))];
    assert PickerOption(0, items[0]) == DownloadOption("Media 1", "Video", Some("a"));
    assert PickerOptions(items, 0) == [PickerOption(0, items[0])] + PickerOptions(items[1..], 1);
    var data := ApiResponse(Some("picker"), None, Items(items), None);
    assert data.status != Some("redirect") && data.status != Some("stream");
    assert Present(data, Twitter) == Success(PickerOptions(items, 0));
    var expected := [DownloadOption("Media 1", "Video", Some("a")), DownloadOption("Media 2", "image", Some("b"))];
    assert PickerOptions(items, 0) == expected;
  }

  /**
   * The `forEach` over the picker items, appending one entry per item; it
   * throws at the first `null` element.
   */
  method ListPicker(items: seq<PickerItem>) returns (opts: seq<DownloadOption>, thrown: Option<Thrown>)
    ensures Readable(items) ==> thrown == None && opts == PickerOptions(items, 0)
    ensures !Readable(items) ==> thrown == Some(NullItemError)
  {
    opts := [];
    var index := 0;
    while index < |items|
      invariant 0 <= index <= |items|
      invariant forall k :: 0 <= k < index ==> items[k].PickerItem?
      invariant |opts| == index && forall k :: 0 <= k < index ==> opts[k] == PickerOption(k, items[k])
    {
      if items[index].NullItem? {
        return opts, Some(NullItemError);
      }
      opts := opts + [PickerOption(index, items[index])];
      index := index + 1;
    }
    PickerOptionsAt(items, 0);
    return opts, None;
  }
}
