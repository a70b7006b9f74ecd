/**
 * Values shared by the background worker and the popup of the study-timer
 * extension: what the browser answers when a page asks for the active tab,
 * the log entry both pages write, the URL denylist both pages apply before
 * taking a screenshot, and the `logs` key of extension storage.
 */
module Common {

  datatype Option<T> = None | Some(value: T)

  /** A browser tab as the tabs API reports it; either field may be undefined. */
  datatype Tab = Tab(title: Option<string>, url: Option<string>)

  /** The outcome of asking for the active tab of the current window. */
  datatype TabQuery = Active(tab: Tab) | NoActiveTab | QueryError

  /** The outcome of asking for a screenshot of the visible tab (a data URL). */
  datatype Capture = Shot(data: string) | CaptureError

  /**
   * Everything the browser contributes to one capture: the answer to the tab
   * query, the answer to the screenshot request, the answer to a second tab
   * query (only the popup's recovery path asks it) and the ISO-8601 time at
   * which the entry is built.
   */
  datatype Probe = Probe(query: TabQuery, capture: Capture, requery: TabQuery, stamp: string)

  /** One log entry; `title` and `url` carry JavaScript's `undefined` as None. */
  datatype LogEntry = LogEntry(time: string, title: Option<string>, url: Option<string>, screenshot: Option<string>)

  const UnknownTitle: string := "Unknown"

  /** `title || 'Unknown'`: an undefined or empty title reads as the sentinel. */
  function TitleOrUnknown(title: Option<string>): (r: string)
    ensures r != ""
    ensures r == UnknownTitle || title == Some(r)
    ensures title.Some? && title.value != "" ==> r == title.value
  {
    if title.None? || title.value == "" then UnknownTitle else title.value
  }

  /** JavaScript truthiness of an optional string: present and non-empty. */
  predicate Truthy(s: Option<string>)
  {
    s.Some? && s.value != ""
  }

  /** JavaScript truthiness of a timestamp: set and not 0. */
  predicate Stamped(t: Option<nat>)
  {
    t.Some? && t.value != 0
  }

  /** `Math.round(ms / 60000)`: the nearest whole minute, halves rounded up. */
  function RoundedMinutes(ms: int): (r: int)
    ensures 60000 * r - 30000 <= ms < 60000 * r + 30000
  {
    (2 * ms + 60000) / 120000
  }

  /** The four URL prefixes on which no screenshot is ever attempted. */
  predicate IsProtectedUrl(url: string)
    ensures IsProtectedUrl(url) <==> exists s :: s in ProtectedSchemes && s + "://" <= url
  {
    assert "chrome" + "://" == "chrome://" && "file" + "://" == "file://";
    assert "chrome-extension" + "://" == "chrome-extension://" && "moz-extension" + "://" == "moz-extension://";
    || "chrome://" <= url
    || "chrome-extension://" <= url
    || "moz-extension://" <= url
    || "file://" <= url
  }

  /** The schemes whose pages the denylist protects. */
  const ProtectedSchemes: seq<string> := ["chrome", "chrome-extension", "moz-extension", "file"]

  /** "://" starts at position `k` of `url`. */
  predicate SeparatorAt(url: string, k: int)
  {
    0 <= k && k + 3 <= |url| && url[k..k + 3] == "://"
  }

  /** The first position at or after `i` where "://" starts, if any. */
  function SchemeEnd(url: string, i: nat): (r: Option<nat>)
    requires i <= |url|
    ensures r.Some? ==> i <= r.value && SeparatorAt(url, r.value)
    ensures r.Some? ==> forall k :: i <= k < r.value ==> !SeparatorAt(url, k)
    ensures r.None? ==> forall k :: i <= k ==> !SeparatorAt(url, k)
    decreases |url| - i
  {
    if i + 3 > |url| then None
    else if url[i..i + 3] == "://" then Some(i)
    else SchemeEnd(url, i + 1)
  }

  /** The scheme of a URL: everything before its first "://". */
  function Scheme(url: string): Option<string>
  {
    match SchemeEnd(url, 0)
    case Some(j) => Some(url[..j])
    case None => None
  }

  /** A URL that begins with `s` followed by "://" has scheme `s` when `s` holds no colon. */
  lemma SchemeOfPrefix(url: string, s: string)
    requires forall k :: 0 <= k < |s| ==> s[k] != ':'
    requires s + "://" <= url
    ensures Scheme(url) == Some(s)
  {
    var j := |s|;
    assert url[..j + 3] == s + "://";
    assert url[j..j + 3] == url[..j + 3][j..j + 3] == "://";
    assert SeparatorAt(url, j);
    forall k | 0 <= k < j
      ensures !SeparatorAt(url, k)
    {
      assert url[k] == s[k] != ':';
      if k + 3 <= |url| {
        assert url[k..k + 3][0] == url[k];
      }
    }
    assert url[..j] == s;
  }

  /** The denylist protects exactly the pages whose scheme is chrome, chrome-extension, moz-extension or file. */
  lemma ProtectedIffScheme(url: string)
    ensures IsProtectedUrl(url) <==> Scheme(url).Some? && Scheme(url).value in ProtectedSchemes
  {
    if "chrome://" <= url {
      SchemeOfPrefix(url, "chrome");
    } else if "chrome-extension://" <= url {
      SchemeOfPrefix(url, "chrome-extension");
    } else if "moz-extension://" <= url {
      SchemeOfPrefix(url, "moz-extension");
    } else if "file://" <= url {
      SchemeOfPrefix(url, "file");
    } else if Scheme(url).Some? {
      var j := SchemeEnd(url, 0).value;
      var s := url[..j];
      assert url[..j + 3] == s + "://";
      assert s + "://" <= url;
      assert s + "://" !in ["chrome://", "chrome-extension://", "moz-extension://", "file://"];
    }
  }

  /** The log after a capture that produced `entry`, or the same log when it produced none. */
  function Appended(logs: seq<LogEntry>, entry: Option<LogEntry>): (r: seq<LogEntry>)
    ensures |logs| <= |r| && r[..|logs|] == logs
    ensures entry.None? ==> r == logs
    ensures entry.Some? ==> |r| == |logs| + 1 && r[|logs|] == entry.value
  {
    match entry
    case Some(e) => logs + [e]
    case None => logs
  }

  /**
   * The extension's `logs` storage key: an ordered sequence of entries that
   * both pages extend by a read-modify-write of the whole array.
   */
  class LogStore {
    var logs: seq<LogEntry>

    /** Storage read with the default `{logs: []}`. */
    constructor ()
      ensures logs == []
    {
      logs := [];
    }

    /** Fetch the sequence, push one entry, write it back. */
    method Append(entry: LogEntry)
      modifies this
      ensures logs == old(logs) + [entry]
      ensures |logs| == |old(logs)| + 1 && logs[..|old(logs)|] == old(logs) && logs[|logs| - 1] == entry
    {
      logs := logs + [entry];
    }

    /** Write back an empty sequence. */
    method Clear()
      modifies this
      ensures logs == []
    {
      logs := [];
    }
  }
}
