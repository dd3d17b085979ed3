/**
 * The admin dashboard: the disease form, its encoding into a request body
 * and its prefill from a listed disease, the add/edit/delete/cancel
 * handlers, and what a data fetch installs.
 */
module Dashboard {
  import opened Js
  import opened Strings
  import opened Storage
  import opened Api

  /** The three text inputs of the disease form. */
  datatype DiseaseForm = DiseaseForm(name: string, symptoms: string, advice: string)

  const EmptyForm: DiseaseForm := DiseaseForm("", "", "")

  /** The request body built from the form: the trimmed name, the pieces of the symptoms split on "," and of the advice split on newlines, each trimmed. */
  function Payload(f: DiseaseForm): DiseaseModel {
    DiseaseModel(Trim(f.name), MapTrim(Split(f.symptoms, ",")), MapTrim(Split(f.advice, "\n")))
  }

  /**
   * The body's shape: empty pieces are kept, so each list has one more
   * piece than the text has separators, and no piece holds a separator or
   * surrounding whitespace.
   */
  lemma PayloadShape(f: DiseaseForm)
    ensures Payload(f).name == Trim(f.name)
    ensures |Payload(f).symptoms| == multiset(f.symptoms)[','] + 1
    ensures |Payload(f).advice| == multiset(f.advice)['\n'] + 1
    ensures forall i :: 0 <= i < |Payload(f).symptoms| ==>
      IsTrimmed(Payload(f).symptoms[i]) && ',' !in Payload(f).symptoms[i]
    ensures forall i :: 0 <= i < |Payload(f).advice| ==>
      IsTrimmed(Payload(f).advice[i]) && '\n' !in Payload(f).advice[i]
  {
    SplitCount(f.symptoms, ',');
    SplitCount(f.advice, '\n');
    SplitPiecesFree(f.symptoms, ',');
    SplitPiecesFree(f.advice, '\n');
    assert "," == [','] && "\n" == ['\n'];
    MapTrimFree(Split(f.symptoms, ","), ',');
    MapTrimFree(Split(f.advice, "\n"), '\n');
  }

  /** `handleEditDisease`'s prefill: symptoms joined by ", ", advice by newlines. */
  function Prefill(d: Disease): DiseaseForm {
    DiseaseForm(d.name, Join(d.symptoms, ", "), Join(d.advice, "\n"))
  }

  /** The lists a form can give back unchanged: non-empty, trimmed, and free of their separator. */
  predicate Encodable(items: seq<string>, sep: char) {
    |items| >= 1 && forall i :: 0 <= i < |items| ==> IsTrimmed(items[i]) && sep !in items[i]
  }

  /** Re-submitting an untouched prefill sends back the listed disease. */
  lemma PrefillRoundTrip(d: Disease)
    requires IsTrimmed(d.name)
    requires Encodable(d.symptoms, ',') && Encodable(d.advice, '\n')
    ensures Payload(Prefill(d)) == DiseaseModel(d.name, d.symptoms, d.advice)
  {
    assert ", " == [','] + " ";
    assert "\n" == ['\n'] + "";
    SplitJoinTrimRoundTrip(d.symptoms, ',', " ");
    SplitJoinTrimRoundTrip(d.advice, '\n', "");
    TrimOfTrimmed(d.name);
  }

  /** An empty list does not survive the round trip: it comes back as one empty piece. */
  lemma EmptyListsComeBackAsBlank(name: string)
    requires IsTrimmed(name)
    ensures Payload(Prefill(Disease(name, [], []))).symptoms == [""]
    ensures Payload(Prefill(Disease(name, [], []))).advice == [""]
  {
    assert Split("", ",") == [""];
    assert Split("", "\n") == [""];
    assert Trim("") == "";
  }

  /** The add-disease example: "Flu" with "fever, cough" and "rest\nhydrate". */
  lemma FluPayload()
    ensures Payload(DiseaseForm("Flu", "fever, cough", "rest\nhydrate"))
      == DiseaseModel("Flu", ["fever", "cough"], ["rest", "hydrate"])
  {
    var flu := Disease("Flu", ["fever", "cough"], ["rest", "hydrate"]);
    FluPrefill(flu);
    FluEncodable(flu);
    PrefillRoundTrip(flu);
  }

  lemma FluPrefill(flu: Disease)
    requires flu == Disease("Flu", ["fever", "cough"], ["rest", "hydrate"])
    ensures Prefill(flu) == DiseaseForm("Flu", "fever, cough", "rest\nhydrate")
  {
    assert Join(["fever", "cough"], ", ") == "fever, cough" by {
      assert ["fever", "cough"][1..] == ["cough"];
    }
    assert Join(["rest", "hydrate"], "\n") == "rest\nhydrate" by {
      assert ["rest", "hydrate"][1..] == ["hydrate"];
    }
  }

  lemma FluEncodable(flu: Disease)
    requires flu == Disease("Flu", ["fever", "cough"], ["rest", "hydrate"])
    ensures IsTrimmed(flu.name)
    ensures Encodable(flu.symptoms, ',') && Encodable(flu.advice, '\n')
  {
    assert ',' !in "fever" && ',' !in "cough";
    assert '\n' !in "rest" && '\n' !in "hydrate";
    assert IsTrimmed("fever") && IsTrimmed("cough");
    assert IsTrimmed("rest") && IsTrimmed("hydrate");
  }

  /** The request a save or a delete sends, with the bearer header built from "adminToken". */
  datatype DiseaseRequest =
    | AddRequest(body: DiseaseModel, authorization: string)
    | EditRequest(target: string, body: DiseaseModel, authorization: string)
    | DeleteRequest(target: string, authorization: string)

  /**
   * A name that reaches the server unchanged as the last path segment of the
   * edit and delete URLs, which put `target` into the path without encoding it.
   */
  predicate PathSafe(name: string) {
    forall i :: 0 <= i < |name| ==> name[i] != '/' && name[i] != '?' && name[i] != '#' && name[i] != '%'
  }

  /** The three fetches' replies: stats, `latest_reviews`, `knowledge_base`; or a rejection of any. */
  datatype FetchOutcome =
    | Fetched(stats: Stats, latestReviews: Option<seq<FeedbackView>>, knowledgeBase: Option<seq<Disease>>)
    | FetchFailed

  datatype FormField = NameField | SymptomsField | AdviceField

  class AdminDashboard {
    var stats: Option<Stats>
    var reviews: seq<FeedbackView>
    var knowledgeBase: seq<Disease>
    var newDisease: DiseaseForm
    var editingDisease: Option<Disease>

    constructor ()
      ensures stats == None && reviews == [] && knowledgeBase == []
      ensures newDisease == EmptyForm && editingDisease == None
    {
      stats := None;
      reviews := [];
      knowledgeBase := [];
      newDisease := EmptyForm;
      editingDisease := None;
    }

    /** `fetchAllData`: a missing list is empty; a rejection changes nothing. */
    method FetchAllData(outcome: FetchOutcome)
      modifies this
      ensures outcome.FetchFailed? ==>
        stats == old(stats) && reviews == old(reviews) && knowledgeBase == old(knowledgeBase)
      ensures outcome.Fetched? ==>
        && stats == Some(outcome.stats)
        && reviews == (if outcome.latestReviews.Some? then outcome.latestReviews.value else [])
        && knowledgeBase == (if outcome.knowledgeBase.Some? then outcome.knowledgeBase.value else [])
      ensures newDisease == old(newDisease) && editingDisease == old(editingDisease)
    {
      match outcome
      case Fetched(s, latest, kb) =>
        stats := Some(s);
        reviews := latest.GetOr([]);
        knowledgeBase := kb.GetOr([]);
      case FetchFailed =>
    }

    /** One of the three inputs. */
    method ChangeField(field: FormField, value: string)
      modifies this
      ensures newDisease == match field
        case NameField => old(newDisease).(name := value)
        case SymptomsField => old(newDisease).(symptoms := value)
        case AdviceField => old(newDisease).(advice := value)
      ensures editingDisease == old(editingDisease)
    {
      match field
      case NameField => newDisease := newDisease.(name := value);
      case SymptomsField => newDisease := newDisease.(symptoms := value);
      case AdviceField => newDisease := newDisease.(advice := value);
    }

    /**
     * `handleAddOrUpdateDisease`: in edit mode the request targets the name
     * the disease was listed under, otherwise it is an add. A save resets
     * the form and leaves edit mode; a failure keeps both.
     */
    method HandleAddOrUpdate(store: LocalStore, saved: bool) returns (request: DiseaseRequest)
      modifies this
      ensures editingDisease == old(editingDisease) || editingDisease == None
      ensures old(editingDisease).Some? ==>
        request == EditRequest(old(editingDisease).value.name, Payload(old(newDisease)), Bearer(store.Token(AdminTokenKey)))
      ensures old(editingDisease).None? ==>
        request == AddRequest(Payload(old(newDisease)), Bearer(store.Token(AdminTokenKey)))
      ensures saved ==> newDisease == EmptyForm && editingDisease == None
      ensures !saved ==> newDisease == old(newDisease) && editingDisease == old(editingDisease)
      ensures stats == old(stats) && reviews == old(reviews) && knowledgeBase == old(knowledgeBase)
    {
      var payload := Payload(newDisease);
      var authorization := Bearer(store.Token(AdminTokenKey));
      if editingDisease.Some? {
        request := EditRequest(editingDisease.value.name, payload, authorization);
      } else {
        request := AddRequest(payload, authorization);
      }
      if saved {
        newDisease := EmptyForm;
        editingDisease := None;
      }
    }

    /** `handleEditDisease`: enter edit mode with the prefilled form. */
    method HandleEdit(d: Disease)
      modifies this
      ensures editingDisease == Some(d) && newDisease == Prefill(d)
      ensures stats == old(stats) && reviews == old(reviews) && knowledgeBase == old(knowledgeBase)
    {
      editingDisease := Some(d);
      newDisease := Prefill(d);
    }

    /** `handleDeleteDisease`: a declined confirmation sends nothing. No state changes here. */
    method HandleDelete(store: LocalStore, name: string, confirmed: bool) returns (request: Option<DiseaseRequest>)
      ensures !confirmed ==> request == None
      ensures confirmed ==> request == Some(DeleteRequest(name, Bearer(store.Token(AdminTokenKey))))
    {
      if !confirmed {
        return None;
      }
      request := Some(DeleteRequest(name, Bearer(store.Token(AdminTokenKey))));
    }

    /** `handleCancelEdit`. */
    method HandleCancelEdit()
      modifies this
      ensures editingDisease == None && newDisease == EmptyForm
      ensures stats == old(stats) && reviews == old(reviews) && knowledgeBase == old(knowledgeBase)
    {
      editingDisease := None;
      newDisease := EmptyForm;
    }

    /** The logout button removes the admin token. */
    method Logout(store: LocalStore)
      modifies store
      ensures store.entries == old(store.entries) - {AdminTokenKey}
    {
      store.RemoveItem(AdminTokenKey);
    }
  }

  /**
   * Editing a listed disease and saving the untouched prefill sends the
   * server the listed data under its own name, which the server finds as
   * long as that name survives the unencoded URL path.
   */
  lemma EditOfListedDisease(kb: KnowledgeBase, i: nat)
    requires UniqueKeys(kb) && AllKeysLower(kb) && i < |kb|
    requires IsTrimmed(kb[i].key) && PathSafe(kb[i].key)
    requires Encodable(kb[i].info.symptoms, ',') && Encodable(kb[i].info.advice, '\n')
    ensures Lower(Listing(kb)[i].name) in Keys(kb)
    ensures Payload(Prefill(Listing(kb)[i])) ==
      DiseaseModel(kb[i].key, kb[i].info.symptoms, kb[i].info.advice)
  {
    ListedNameFound(kb, i);
    PrefillRoundTrip(Listing(kb)[i]);
  }
}
