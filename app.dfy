/** The landing page where an interview is chosen: the company and
    interview-type toggles, which mirror the choice into localStorage, the
    CV upload, and the start action that persists the choice and moves on. */
module Landing {
  import opened Js
  import opened Browser

  const CompanyIds: set<string> := {"google", "meta", "other"}
  const InterviewTypes: set<string> := {"behavioural", "technical"}

  /** The start button is enabled once a company is chosen and an interview
      type is set. */
  predicate Ready(company: Option<string>, interviewType: string) {
    company.Some? && company.value != "" && interviewType != ""
  }

  /** The upload handler's payload for a file read as a data URL: `None`
      when the reader's result is not a non-empty string. `base64` is the
      second comma-separated piece, or `''`. */
  function CvPayload(fileName: string, fileType: string, result: Json): Option<Json> {
    if !Truthy(result) || !result.Str? then None
    else
      var pieces := Split(result.s, ",");
      var base64 := if |pieces| >= 2 then Str(pieces[1]) else Undefined;
      Some(Obj([("fileName", Str(fileName)),
                ("mimeType", Or(Str(fileType), Str("application/octet-stream"))),
                ("base64", Or(base64, Str("")))]))
  }

  /** A comma at the end of a comma-free head is the first comma. */
  lemma FirstComma(head: string, tail: string)
    requires !Contains(head, ",")
    ensures IndexOf(head + "," + tail, ",") == Some(|head|)
  {
    var s := head + "," + tail;
    assert OccursAt(s, ",", |head|);
    forall j: nat | j < |head|
      ensures !OccursAt(s, ",", j)
    {
      assert s[j..j + 1] == head[j..j + 1];
      assert !OccursAt(head, ",", j);
    }
  }

  /** For a data URL `<meta>,<data>` as in section 3 of RFC 2397, the payload
      carries the data as `base64`. The MIME type falls back to
      `application/octet-stream`. */
  lemma CvPayloadFields(fileName: string, fileType: string, meta: string, data: string)
    requires !Contains(meta, ",") && !Contains(data, ",")
    ensures var p := CvPayload(fileName, fileType, Str(meta + "," + data));
      && p.Some?
      && Get(p.value, "base64") == Str(data)
      && Get(p.value, "fileName") == Str(fileName)
      && Get(p.value, "mimeType") == Str(if fileType == "" then "application/octet-stream" else fileType)
  {
    var s := meta + "," + data;
    FirstComma(meta, data);
    SplitSecond(s, ",", |meta|);
    assert s[|meta| + 1..] == data;
    NoIndexFromWithout(s, ",", |meta| + 1);
    var p := CvPayload(fileName, fileType, Str(s)).value;
    LookupFirst(p.entries, "base64", 2);
    LookupFirst(p.entries, "mimeType", 1);
  }

  /** A result without a comma has a single piece, so `base64` is `''`. */
  lemma CvPayloadNoComma(fileName: string, fileType: string, result: string)
    requires result != "" && !Contains(result, ",")
    ensures CvPayload(fileName, fileType, Str(result)).Some?
    ensures Get(CvPayload(fileName, fileType, Str(result)).value, "base64") == Str("")
  {
    NoIndexWithout(result, ",");
    LookupFirst(CvPayload(fileName, fileType, Str(result)).value.entries, "base64", 2);
  }

  /** A CV stored at start is read back unchanged by the interview pages'
      `getStoredCv`, provided `JSON.parse` inverts `JSON.stringify` on it; no
      CV removes the key, which reads back as `null`. */
  lemma CvHandOver(cv: Json, stringify: Json -> string, parse: string -> Option<Json>)
    requires Truthy(cv) ==> stringify(cv) != "" && parse(stringify(cv)) == Some(cv)
    ensures StoredCv(if Truthy(cv) then Some(stringify(cv)) else None, parse) == (if Truthy(cv) then cv else Null)
  {
  }

  class LandingPage {
    var company: Option<string>
    var interviewType: string
    var cv: Json
    var navigation: Option<(string, Json)>
    const storage: LocalStorage

    predicate Valid()
      reads this
    {
      company.Some? ==> company.value != ""
    }

    /** The initial state read from storage; without a token the page goes
        to `/login`. */
    constructor(storage: LocalStorage, parse: string -> Option<Json>)
      ensures Valid() && this.storage == storage
      ensures company == (if storage.GetItem("selectedCompany") == Some("") then None else storage.GetItem("selectedCompany"))
      ensures interviewType == (if storage.GetItem("selectedInterviewType").Some? then storage.GetItem("selectedInterviewType").value else "")
      ensures cv == StoredCv(storage.GetItem("candidateCv"), parse)
      ensures navigation == if storage.GetItem("token").None? || storage.GetItem("token") == Some("") then Some(("/login", Null)) else None
    {
      this.storage := storage;
      var stored := storage.GetItem("selectedCompany");
      company := if stored == Some("") then None else stored;
      var kind := storage.GetItem("selectedInterviewType");
      interviewType := if kind.Some? then kind.value else "";
      cv := StoredCv(storage.GetItem("candidateCv"), parse);
      var token := storage.GetItem("token");
      navigation := if token.None? || token.value == "" then Some(("/login", Null)) else None;
    }

    /** `handleCompanyClick`: clicking the selected company clears the
        choice and its key; clicking another selects and stores it. */
    method CompanyClick(id: string)
      requires Valid() && id in CompanyIds
      modifies this, storage
      ensures Valid()
      ensures old(company) == Some(id) ==> company.None? && storage.items == old(storage.items) - {"selectedCompany"}
      ensures old(company) != Some(id) ==> company == Some(id) && storage.items == old(storage.items)["selectedCompany" := id]
      ensures interviewType == old(interviewType) && cv == old(cv) && navigation == old(navigation)
    {
      if company == Some(id) {
        company := None;
        storage.RemoveItem("selectedCompany");
      } else {
        company := Some(id);
        storage.SetItem("selectedCompany", id);
      }
    }

    /** `handleToggle` with its `onChange`: ignored while no company is
        chosen; otherwise toggling the selected type clears it and its key,
        and toggling the other selects and stores it. */
    method ToggleType(id: string)
      requires Valid() && id in InterviewTypes
      modifies this, storage
      ensures Valid()
      ensures old(company).None? ==> interviewType == old(interviewType) && storage.items == old(storage.items)
      ensures old(company).Some? && old(interviewType) == id ==>
        interviewType == "" && storage.items == old(storage.items) - {"selectedInterviewType"}
      ensures old(company).Some? && old(interviewType) != id ==>
        interviewType == id && storage.items == old(storage.items)["selectedInterviewType" := id]
      ensures company == old(company) && cv == old(cv) && navigation == old(navigation)
    {
      if company.None? {
        return;
      }
      if interviewType == id {
        interviewType := "";
        storage.RemoveItem("selectedInterviewType");
      } else {
        interviewType := id;
        storage.SetItem("selectedInterviewType", id);
      }
    }

    /** `onCvLoaded(cvPayload)` once the file reader is done. */
    method LoadCv(fileName: string, fileType: string, result: Json)
      requires Valid()
      modifies this
      ensures Valid()
      ensures cv == if CvPayload(fileName, fileType, result).Some? then CvPayload(fileName, fileType, result).value else old(cv)
      ensures company == old(company) && interviewType == old(interviewType) && navigation == old(navigation)
    {
      var payload := CvPayload(fileName, fileType, result);
      if payload.Some? {
        cv := payload.value;
      }
    }

    /** `handleInterviewStart`: a no-op unless ready; otherwise stores the
        company, the type and the CV (or drops a stale one) and goes to
        `/<type>`. */
    method Start(stringify: Json -> string)
      requires Valid()
      modifies this, storage
      ensures Valid()
      ensures !Ready(old(company), old(interviewType)) ==> navigation == old(navigation) && storage.items == old(storage.items)
      ensures Ready(old(company), old(interviewType)) ==>
        && navigation == Some(("/" + old(interviewType),
             Obj([("company", Str(old(company).value)), ("interviewType", Str(old(interviewType))), ("cv", old(cv))])))
        && storage.items ==
             (var chosen := old(storage.items)["selectedCompany" := old(company).value]["selectedInterviewType" := old(interviewType)];
              if Truthy(old(cv)) then chosen["candidateCv" := stringify(old(cv))] else chosen - {"candidateCv"})
      ensures company == old(company) && interviewType == old(interviewType) && cv == old(cv)
    {
      if !Ready(company, interviewType) {
        return;
      }
      storage.SetItem("selectedCompany", company.value);
      storage.SetItem("selectedInterviewType", interviewType);
      if Truthy(cv) {
        storage.SetItem("candidateCv", stringify(cv));
      } else {
        storage.RemoveItem("candidateCv");
      }
      navigation := Some(("/" + interviewType,
        Obj([("company", Str(company.value)), ("interviewType", Str(interviewType)), ("cv", cv)])));
    }
  }
}
