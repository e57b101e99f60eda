/**
 * The ticket record of internal/model/epic.go: the decoded ticket, the
 * side map of custom fields captured while decoding, the best-effort
 * accessors over that map, and the tolerant timestamp decoder.
 *
 * Only the ticket attributes that the graph and statistics code reads are
 * kept; JSON itself is represented by its decoded form, `Value`.
 */
module Model {
  import opened Wrappers

  /** A decoded JSON value, as Go's encoding/json stores it in an `any`:
      nil, bool, float64, string, map[string]any or []any. */
  datatype Value =
    | Null
    | Bool(b: bool)
    | Num(n: real)
    | Str(s: string)
    | Obj(entries: map<string, Value>)
    | Arr(items: seq<Value>)

  datatype StatusCategory = StatusCategory(key: string)
  datatype Status = Status(name: string)
  datatype IssueType = IssueType(name: string)
  datatype LinkType = LinkType(name: string)

  /** A user; `avatarUrls` maps a size such as "48x48" to a URL. */
  datatype User = User(
    accountId: string,
    displayName: string,
    avatarUrls: map<string, string>,
    active: bool)

  /** An issue link; an absent side decodes to a ticket whose key is "". */
  datatype IssueLink = IssueLink(linkType: LinkType, inwardIssue: Ticket, outwardIssue: Ticket)

  /** The `fields` object of a ticket. `customFields` is None while the Go
      map is nil, which is the case for a ticket whose `fields` object was
      never decoded. */
  datatype Fields = Fields(
    summary: string,
    status: Status,
    statusCategory: StatusCategory,
    issueType: IssueType,
    assignee: User,
    issueLinks: seq<IssueLink>,
    customFields: Option<map<string, Value>>)

  datatype Ticket = Ticket(key: string, fields: Fields)

  /** A custom-field option object: an entry that is absent or not a string
      is left as "". */
  datatype CustomFieldOption = CustomFieldOption(self: string, value: string, id: string)

  /** Keys captured into the custom-field map: longer than the 12-character
      prefix "customfield_" and starting with it. */
  predicate IsCustomFieldKey(key: string)
  {
    |key| > 12 && key[..12] == "customfield_"
  }

  /**
   * Fields.UnmarshalJSON: `fixed` is the struct decoded from the fixed
   * schema (its custom-field map is ignored, as the Go field is tagged
   * `json:"-"`) and `fieldMap` is the same object decoded as a map. The
   * loop over the map keys visits them in an arbitrary order, as Go's map
   * iteration does.
   */
  method UnmarshalFields(fixed: Fields, fieldMap: map<string, Value>) returns (f: Fields)
    ensures f == fixed.(customFields := f.customFields)
    ensures f.customFields.Some?
    ensures f.customFields.value.Keys == set key | key in fieldMap && IsCustomFieldKey(key)
    ensures forall key :: key in f.customFields.value ==> f.customFields.value[key] == fieldMap[key]
    ensures "customfield_" !in f.customFields.value
  {
    var custom: map<string, Value> := map[];
    var remaining := fieldMap.Keys;
    while remaining != {}
      invariant remaining <= fieldMap.Keys
      invariant custom.Keys == set key | key in fieldMap && key !in remaining && IsCustomFieldKey(key)
      invariant forall key :: key in custom ==> custom[key] == fieldMap[key]
      decreases remaining
    {
      var key :| key in remaining;
      if |key| > 12 && key[..12] == "customfield_" {
        custom := custom[key := fieldMap[key]];
      }
      remaining := remaining - {key};
    }
    f := fixed.(customFields := Some(custom));
  }

  /** GetCustomField: the stored value and whether it exists; a nil map and
      a missing key both give (nil, false). */
  function GetCustomField(f: Fields, fieldId: string): (r: (Value, bool))
    ensures r.1 <==> f.customFields.Some? && fieldId in f.customFields.value
    ensures r.1 ==> r.0 == f.customFields.value[fieldId]
    ensures !r.1 ==> r.0 == Null
  {
    match f.customFields
    case None => (Null, false)
    case Some(m) => if fieldId in m then (m[fieldId], true) else (Null, false)
  }

  /** True when the field is present in the custom-field map. */
  predicate HasCustomField(f: Fields, fieldId: string)
  {
    f.customFields.Some? && fieldId in f.customFields.value
  }

  function GetCustomFieldAsString(f: Fields, fieldId: string): (r: string)
    ensures HasCustomField(f, fieldId) && f.customFields.value[fieldId].Str? ==>
              r == f.customFields.value[fieldId].s
    ensures !(HasCustomField(f, fieldId) && f.customFields.value[fieldId].Str?) ==> r == ""
  {
    var (value, present) := GetCustomField(f, fieldId);
    if present && value.Str? then value.s else ""
  }

  function GetCustomFieldAsFloat(f: Fields, fieldId: string): (r: real)
    ensures HasCustomField(f, fieldId) && f.customFields.value[fieldId].Num? ==>
              r == f.customFields.value[fieldId].n
    ensures !(HasCustomField(f, fieldId) && f.customFields.value[fieldId].Num?) ==> r == 0.0
  {
    var (value, present) := GetCustomField(f, fieldId);
    if present && value.Num? then value.n else 0.0
  }

  /** The string stored under `name` in a decoded object, or "" when the
      entry is missing or is not a string. */
  function StringEntry(entries: map<string, Value>, name: string): (r: string)
    ensures name in entries && entries[name].Str? ==> r == entries[name].s
    ensures !(name in entries && entries[name].Str?) ==> r == ""
  {
    if name in entries && entries[name].Str? then entries[name].s else ""
  }

  function GetCustomFieldAsOption(f: Fields, fieldId: string): (r: Option<CustomFieldOption>)
    ensures r.Some? <==> HasCustomField(f, fieldId) && f.customFields.value[fieldId].Obj?
    ensures r.Some? ==>
              var entries := f.customFields.value[fieldId].entries;
              r.value == CustomFieldOption(
                StringEntry(entries, "self"), StringEntry(entries, "value"), StringEntry(entries, "id"))
  {
    var (value, present) := GetCustomField(f, fieldId);
    if present && value.Obj? then
      Some(CustomFieldOption(
        StringEntry(value.entries, "self"),
        StringEntry(value.entries, "value"),
        StringEntry(value.entries, "id")))
    else
      None
  }

  /** A decoded timestamp (Go's time.Time); its representation is opaque here. */
  datatype Instant = Instant(unixNanos: int)

  /** The layouts JiraTime.UnmarshalJSON tries, in order; the last two are
      Go's time.RFC3339 and time.RFC3339Nano. */
  const TimeLayouts: seq<string> := [
    "2006-01-02T15:04:05.000-0700",
    "2006-01-02T15:04:05.000Z0700",
    "2006-01-02T15:04:05-0700",
    "2006-01-02T15:04:05Z0700",
    "2006-01-02T15:04:05Z07:00",
    "2006-01-02T15:04:05.999999999Z07:00"
  ]

  /** Drops every leading '"'. */
  function TrimLeadingQuotes(s: string): (r: string)
    ensures |r| <= |s| && r == s[|s| - |r|..]
    ensures r == [] || r[0] != '"'
    ensures forall i :: 0 <= i < |s| - |r| ==> s[i] == '"'
    decreases |s|
  {
    if |s| > 0 && s[0] == '"' then TrimLeadingQuotes(s[1..]) else s
  }

  /** Drops every trailing '"'. */
  function TrimTrailingQuotes(s: string): (r: string)
    ensures |r| <= |s| && r == s[..|r|]
    ensures r == [] || r[|r| - 1] != '"'
    ensures forall i :: |r| <= i < |s| ==> s[i] == '"'
    decreases |s|
  {
    if |s| > 0 && s[|s| - 1] == '"' then TrimTrailingQuotes(s[..|s| - 1]) else s
  }

  /** strings.Trim(s, `"`): `s` with every leading and every trailing '"'
      removed. */
  function TrimQuotes(s: string): string
  {
    TrimTrailingQuotes(TrimLeadingQuotes(s))
  }

  /** The number of quotes TrimQuotes drops at the front. */
  function LeadingQuoteCount(s: string): nat
  {
    |s| - |TrimLeadingQuotes(s)|
  }

  /** What TrimQuotes keeps is a contiguous slice of the input. */
  lemma TrimQuotesSlice(s: string)
    ensures var lo := LeadingQuoteCount(s);
            lo + |TrimQuotes(s)| <= |s| && TrimQuotes(s) == s[lo..lo + |TrimQuotes(s)|]
  {
  }

  /** Everything TrimQuotes drops, in front of the slice and behind it, is
      a quote. */
  lemma TrimQuotesDropsOnlyQuotes(s: string)
    ensures var lo := LeadingQuoteCount(s);
            (forall i :: 0 <= i < lo ==> s[i] == '"')
            && (forall i :: lo + |TrimQuotes(s)| <= i < |s| ==> s[i] == '"')
  {
    var left := TrimLeadingQuotes(s);
    var lo := |s| - |left|;
    var r := TrimTrailingQuotes(left);
    forall i | lo + |r| <= i < |s| ensures s[i] == '"' {
      assert s[i] == left[i - lo];
    }
  }

  /** TrimQuotes leaves no quote at either end. */
  lemma TrimQuotesEnds(s: string)
    ensures var r := TrimQuotes(s);
            r == [] || (r[0] != '"' && r[|r| - 1] != '"')
  {
    var left := TrimLeadingQuotes(s);
    var r := TrimTrailingQuotes(left);
    assert r != [] ==> r[0] == left[0];
  }

  /** The index of the first layout under which `s` parses, if any. */
  function FirstParsingLayout(layouts: seq<string>, s: string, parse: (string, string) -> Option<Instant>): (r: Option<nat>)
    ensures r.Some? ==> r.value < |layouts| && parse(layouts[r.value], s).Some?
    ensures r.Some? ==> forall j :: 0 <= j < r.value ==> parse(layouts[j], s).None?
    ensures r.None? <==> forall j :: 0 <= j < |layouts| ==> parse(layouts[j], s).None?
  {
    if layouts == [] then None
    else if parse(layouts[0], s).Some? then Some(0)
    else
      match FirstParsingLayout(layouts[1..], s, parse)
      case None => None
      case Some(i) => Some(i + 1)
  }

  /** The first layout that parses is the one FirstParsingLayout names. */
  lemma {:induction false} FirstParsingLayoutAt(layouts: seq<string>, s: string, parse: (string, string) -> Option<Instant>, i: nat)
    requires i < |layouts| && parse(layouts[i], s).Some?
    requires forall j :: 0 <= j < i ==> parse(layouts[j], s).None?
    ensures FirstParsingLayout(layouts, s, parse) == Some(i)
  {
    if i > 0 {
      FirstParsingLayoutAt(layouts[1..], s, parse, i - 1);
    }
  }

  /** JiraTime: a timestamp that is decoded in place. */
  class JiraTime {
    var time: Instant

    constructor (t: Instant)
      ensures time == t
    {
      time := t;
    }

    /**
     * JiraTime.UnmarshalJSON with Go's time.Parse abstracted as `parse`
     * (layout, text): the literal `null` leaves the value alone; otherwise
     * the surrounding quotes are trimmed and the first layout that parses
     * sets the value; when none parses the value is left alone. No input
     * yields an error.
     */
    method UnmarshalJSON(data: string, parse: (string, string) -> Option<Instant>) returns (err: Option<string>)
      modifies this
      ensures err == None
      ensures data == "null" ==> time == old(time)
      ensures data != "null" ==>
                var s := TrimQuotes(data);
                match FirstParsingLayout(TimeLayouts, s, parse)
                case Some(i) => time == parse(TimeLayouts[i], s).value
                case None => time == old(time)
    {
      if data == "null" {
        return None;
      }
      var s := TrimQuotes(data);
      var layouts := TimeLayouts;
      for i := 0 to |layouts|
        invariant forall j :: 0 <= j < i ==> parse(layouts[j], s).None?
        invariant time == old(time)
      {
        var t := parse(layouts[i], s);
        if t.Some? {
          FirstParsingLayoutAt(layouts, s, parse, i);
          time := t.value;
          return None;
        }
      }
      return None;
    }
  }
}
