/**
  The extension's background script (background.js): the global list
  `m3u8Data` of sniffed playlist URLs, its copy in `chrome.storage.local`, and
  the messages sent to the popup. The asynchronous storage and tab lookups
  are taken as completed in call order.
*/
module Background {
  import opened Wrappers

  /** One element of `m3u8Data` (background.js:11-16). */
  datatype UrlRecord = UrlRecord(url: string, sourceURL: string, timestamp: string, id: int)

  /** A runtime message sent to the popup. */
  datatype Message = NewURL(data: UrlRecord)

  /** A response given through `sendResponse`. */
  datatype Reply = Urls(urls: seq<UrlRecord>) | Cleared(success: bool)

  /** The substring a request URL must contain to be recorded (background.js:33). */
  const PlaylistMarker: string := ".m3u8"

  predicate OccursAt(s: string, sub: string, i: nat) {
    i + |sub| <= |s| && s[i..i + |sub|] == sub
  }

  function IncludesFrom(s: string, sub: string, i: nat): (b: bool)
    requires i <= |s|
    decreases |s| - i
    ensures b <==> exists k :: i <= k && OccursAt(s, sub, k)
  {
    OccursAt(s, sub, i) || (i < |s| && IncludesFrom(s, sub, i + 1))
  }

  /** `s.includes(sub)`. */
  function Includes(s: string, sub: string): (b: bool)
    ensures b <==> exists k :: OccursAt(s, sub, k)
  {
    IncludesFrom(s, sub, 0)
  }

  ghost predicate HasUrl(list: seq<UrlRecord>, url: string) {
    exists i :: 0 <= i < |list| && list[i].url == url
  }

  /** No two records share a url. */
  ghost predicate UniqueUrls(list: seq<UrlRecord>) {
    forall i, j :: 0 <= i < j < |list| ==> list[i].url != list[j].url
  }

  /** `list.some(item => item.url === url)` (background.js:19). */
  method SomeHasUrl(list: seq<UrlRecord>, url: string) returns (found: bool)
    ensures found <==> HasUrl(list, url)
  {
    found := false;
    var i := 0;
    while i < |list| && !found
      invariant 0 <= i <= |list|
      invariant found <==> i > 0 && list[i - 1].url == url
      invariant !found ==> forall k :: 0 <= k < i ==> list[k].url != url
    {
      found := list[i].url == url;
      i := i + 1;
    }
  }

  /** Appending a record whose url is new keeps the urls unique. */
  lemma AppendKeepsUnique(list: seq<UrlRecord>, r: UrlRecord)
    requires UniqueUrls(list) && !HasUrl(list, r.url)
    ensures UniqueUrls(list + [r])
  {
  }

  /** The source page's url from `chrome.tabs.get`, or "unknown" without a tab
      (background.js:8). */
  function SourceUrl(tab: Option<string>): (u: string)
    ensures tab.Some? ==> u == tab.value
    ensures tab.None? ==> u == "unknown"
  {
    if tab.Some? then tab.value else "unknown"
  }

  class BackgroundPage {
    /** The global list `m3u8Data`. */
    var m3u8Data: seq<UrlRecord>
    /** The value stored under the key 'm3u8Data', if any. */
    var stored: Option<seq<UrlRecord>>
    /** The runtime messages sent so far. */
    var sent: seq<Message>

    /** The list, and the copy of it in storage, hold no two records with the
        same url. */
    ghost predicate Valid()
      reads this
    {
      UniqueUrls(m3u8Data) && (stored.Some? ==> UniqueUrls(stored.value))
    }

    /** The script starts with an empty list; `stored` is whatever earlier
        runs left in storage. */
    constructor (stored: Option<seq<UrlRecord>>)
      ensures m3u8Data == [] && this.stored == stored && sent == []
      ensures Valid() <==> (stored.Some? ==> UniqueUrls(stored.value))
    {
      m3u8Data := [];
      this.stored := stored;
      sent := [];
    }

    /** `addM3U8URL` (background.js:3-29): the record is appended, saved and
        announced only when no record has the same url; otherwise nothing
        changes. */
    method AddM3U8URL(url: string, tab: Option<string>, timestamp: string, id: int) returns (added: bool)
      modifies this
      ensures old(Valid()) ==> Valid()
      ensures added <==> !HasUrl(old(m3u8Data), url)
      ensures var r := UrlRecord(url, SourceUrl(tab), timestamp, id);
        if added then
          && m3u8Data == old(m3u8Data) + [r]
          && stored == Some(m3u8Data)
          && sent == old(sent) + [NewURL(r)]
        else
          && m3u8Data == old(m3u8Data) && stored == old(stored) && sent == old(sent)
    {
      var urlData := UrlRecord(url, SourceUrl(tab), timestamp, id);
      var duplicate := SomeHasUrl(m3u8Data, url);
      added := !duplicate;
      if added {
        if UniqueUrls(m3u8Data) {
          AppendKeepsUnique(m3u8Data, urlData);
        }
        m3u8Data := m3u8Data + [urlData];
        stored := Some(m3u8Data);
        sent := sent + [NewURL(urlData)];
      }
    }

    /** The `webRequest.onBeforeRequest` listener (background.js:31-39): only
        urls containing ".m3u8" reach `addM3U8URL`. */
    method OnBeforeRequest(url: string, tab: Option<string>, timestamp: string, id: int)
      modifies this
      ensures old(Valid()) ==> Valid()
      ensures !Includes(url, PlaylistMarker) ==>
        m3u8Data == old(m3u8Data) && stored == old(stored) && sent == old(sent)
      ensures var r := UrlRecord(url, SourceUrl(tab), timestamp, id);
        Includes(url, PlaylistMarker) && !HasUrl(old(m3u8Data), url) ==>
          && m3u8Data == old(m3u8Data) + [r]
          && stored == Some(m3u8Data)
          && sent == old(sent) + [NewURL(r)]
      ensures HasUrl(old(m3u8Data), url) ==>
        m3u8Data == old(m3u8Data) && stored == old(stored) && sent == old(sent)
    {
      if Includes(url, PlaylistMarker) {
        var _ := AddM3U8URL(url, tab, timestamp, id);
      }
    }

    /** The `runtime.onMessage` listener (background.js:41-53): "getURLs" is
        answered with the list, "clearAll" empties the list and the stored
        copy and answers `{success: true}`, anything else gets no answer. */
    method OnMessage(action: string) returns (reply: Option<Reply>)
      modifies this
      ensures old(Valid()) ==> Valid()
      ensures sent == old(sent)
      ensures action == "getURLs" ==>
        reply == Some(Urls(old(m3u8Data))) && m3u8Data == old(m3u8Data) && stored == old(stored)
      ensures action == "clearAll" ==>
        reply == Some(Cleared(true)) && m3u8Data == [] && stored == None
      ensures action != "getURLs" && action != "clearAll" ==>
        reply == None && m3u8Data == old(m3u8Data) && stored == old(stored)
    {
      if action == "getURLs" {
        reply := Some(Urls(m3u8Data));
      } else if action == "clearAll" {
        m3u8Data := [];
        stored := None;
        reply := Some(Cleared(true));
      } else {
        reply := None;
      }
    }

    /** The startup load (background.js:55-61): stored data, when there is any
        (an empty list included), replaces the list; otherwise the list is
        left as it is. */
    method LoadFromStorage()
      modifies this`m3u8Data
      ensures old(Valid()) ==> Valid()
      ensures m3u8Data == if stored.Some? then stored.value else old(m3u8Data)
    {
      if stored.Some? {
        m3u8Data := stored.value;
      }
    }
  }
}
