/** Wizard step 3: pick a service type and a set of service details, and send
    them up with the details joined by ';'. */
module RepairSelector {
  import opened Js
  import opened ReservationEvents

  /** A picklist entry (`text` is its label). */
  datatype PicklistOption = PicklistOption(text: string, value: string)

  /** A detail option with its checkbox state. */
  datatype DetailOption = DetailOption(option: PicklistOption, isSelected: bool)

  /** What `getFormData` returns. */
  datatype FormData = FormData(serviceType: string, details: string, description: string)

  /** No value occurs twice. */
  predicate NoDuplicates(s: seq<string>) {
    forall i, j :: 0 <= i < j < |s| ==> s[i] != s[j]
  }

  /** Leaving elements out keeps a sequence free of duplicates. */
  lemma {:induction false} SubsequenceNoDuplicates(r: seq<string>, s: seq<string>)
    requires IsSubsequence(r, s) && NoDuplicates(s)
    ensures NoDuplicates(r)
    decreases |s|
  {
    if |r| > 0 {
      assert NoDuplicates(s[1..]) by {
        forall i, j | 0 <= i < j < |s| - 1 ensures s[1..][i] != s[1..][j] {
          assert s[1..][i] == s[i + 1] && s[1..][j] == s[j + 1];
        }
      }
      if r[0] == s[0] {
        SubsequenceNoDuplicates(r[1..], s[1..]);
        SubsequenceElements(r[1..], s[1..]);
        forall i, j | 0 <= i < j < |r| ensures r[i] != r[j] {
          if i == 0 {
            assert r[j] == r[1..][j - 1];
            assert r[j] in s[1..];
            var k :| 0 <= k < |s[1..]| && s[1..][k] == r[j];
            assert s[k + 1] == r[j];
          } else {
            assert r[i] == r[1..][i - 1] && r[j] == r[1..][j - 1];
          }
        }
      } else {
        SubsequenceNoDuplicates(r, s[1..]);
      }
    }
  }

  /** Every element of a subsequence is an element of the sequence. */
  lemma {:induction false} SubsequenceElements(r: seq<string>, s: seq<string>)
    requires IsSubsequence(r, s)
    ensures forall x :: x in r ==> x in s
    decreases |s|
  {
    if |r| > 0 {
      assert s == [s[0]] + s[1..];
      if r[0] == s[0] {
        SubsequenceElements(r[1..], s[1..]);
        assert r == [r[0]] + r[1..];
      } else {
        SubsequenceElements(r, s[1..]);
      }
    }
  }

  /** Checking a detail: appended only if it is not there yet. */
  function WithDetail(selected: seq<string>, value: string): (r: seq<string>)
    ensures value in r
    ensures forall x :: x in r <==> x in selected || x == value
    ensures value in selected ==> r == selected
    ensures value !in selected ==> r == selected + [value]
    ensures NoDuplicates(selected) ==> NoDuplicates(r)
  {
    if value in selected then selected else selected + [value]
  }

  /** Unchecking a detail: every occurrence goes, the others stay in order. */
  function WithoutDetail(selected: seq<string>, value: string): (r: seq<string>)
    ensures value !in r
    ensures forall x :: x in r <==> x in selected && x != value
    ensures IsSubsequence(r, selected)
    ensures NoDuplicates(selected) ==> NoDuplicates(r)
  {
    var r := Filter(x => x != value, selected);
    assert NoDuplicates(selected) ==> NoDuplicates(r) by {
      if NoDuplicates(selected) {
        SubsequenceNoDuplicates(r, selected);
      }
    }
    r
  }

  /** The ';'-joined detail string stored in ServiceReservationTypeDetails__c. */
  function JoinDetails(selected: seq<string>): string {
    Join(selected, ";")
  }

  /** Splitting the joined string on ';' gives back the selection, as long as
      something is selected and no value contains ';'. */
  lemma DetailsRoundTrip(selected: seq<string>)
    requires |selected| > 0
    requires forall i :: 0 <= i < |selected| ==> ';' !in selected[i]
    ensures Split(JoinDetails(selected), ';') == selected
  {
    SplitJoin(selected, ';');
  }

  /** The first option whose value is `value`, if any. */
  function FindOption(options: seq<PicklistOption>, value: string): (r: Option<PicklistOption>)
    ensures r.None? <==> forall i :: 0 <= i < |options| ==> options[i].value != value
    ensures r.Some? ==> r.value in options && r.value.value == value
    ensures r.Some? ==> exists k :: 0 <= k < |options| && options[k] == r.value
                          && forall j :: 0 <= j < k ==> options[j].value != value
    decreases |options|
  {
    if |options| == 0 then None
    else if options[0].value == value then Some(options[0])
    else
      assert forall i :: 1 <= i < |options| ==> options[i] == options[1..][i - 1];
      var r := FindOption(options[1..], value);
      assert r.Some? ==> exists k :: 0 <= k < |options| && options[k] == r.value
                          && forall j :: 0 <= j < k ==> options[j].value != value by {
        if r.Some? {
          var k :| 0 <= k < |options[1..]| && options[1..][k] == r.value
                   && forall j :: 0 <= j < k ==> options[1..][j].value != value;
          assert options[k + 1] == r.value;
          assert forall j :: 0 <= j < k + 1 ==> options[j].value != value by {
            forall j | 0 <= j < k + 1 ensures options[j].value != value {
              if j > 0 { assert options[j] == options[1..][j - 1]; }
            }
          }
        }
      }
      r
  }

  /** The label shown for a selected value: its option's label, or the value itself. */
  function DisplayLabel(options: seq<PicklistOption>, value: string): (r: string)
    ensures (forall i :: 0 <= i < |options| ==> options[i].value != value) ==> r == value
    ensures (exists i :: 0 <= i < |options| && options[i].value == value) ==>
              exists k :: 0 <= k < |options| && options[k].value == value && r == options[k].text
                          && forall j :: 0 <= j < k ==> options[j].value != value
  {
    var o := FindOption(options, value);
    if o.Some? then o.value.text else value
  }

  class RepairSelector {
    var selectedServiceTypeValue: string
    var selectedServiceType: string
    var selectedServiceTypeDetails: seq<string>
    var description: string
    var serviceDetailPicklistOptions: seq<PicklistOption>

    /** The selection behaves as a set. */
    ghost predicate Valid()
      reads this
    {
      NoDuplicates(selectedServiceTypeDetails)
    }

    constructor ()
      ensures Valid()
      ensures selectedServiceTypeValue == "" && selectedServiceType == "" && description == ""
      ensures selectedServiceTypeDetails == [] && serviceDetailPicklistOptions == []
    {
      selectedServiceTypeValue := "";
      selectedServiceType := "";
      selectedServiceTypeDetails := [];
      description := "";
      serviceDetailPicklistOptions := [];
    }

    /** The detail options with `isSelected` set exactly for the selected values. */
    function FilteredDetailOptions(): (r: seq<DetailOption>)
      reads this
      ensures |r| == |serviceDetailPicklistOptions|
      ensures forall i :: 0 <= i < |r| ==>
                r[i].option == serviceDetailPicklistOptions[i]
                && (r[i].isSelected <==> serviceDetailPicklistOptions[i].value in selectedServiceTypeDetails)
    {
      seq(|serviceDetailPicklistOptions|, i requires 0 <= i < |serviceDetailPicklistOptions| reads this =>
        DetailOption(serviceDetailPicklistOptions[i],
                     serviceDetailPicklistOptions[i].value in selectedServiceTypeDetails))
    }

    function HasSelectedDetails(): (r: bool)
      reads this
      ensures r <==> selectedServiceTypeDetails != []
    {
      |selectedServiceTypeDetails| > 0
    }

    /** One label per selected value, in selection order. */
    function SelectedDetailsDisplay(): (r: seq<string>)
      reads this
      ensures |r| == |selectedServiceTypeDetails|
      ensures forall i :: 0 <= i < |r| ==> r[i] == DisplayLabel(serviceDetailPicklistOptions, selectedServiceTypeDetails[i])
    {
      seq(|selectedServiceTypeDetails|, i requires 0 <= i < |selectedServiceTypeDetails| reads this =>
        DisplayLabel(serviceDetailPicklistOptions, selectedServiceTypeDetails[i]))
    }

    /** "Next" is disabled while the type or the detail selection is empty. */
    function IsNextDisabled(): (r: bool)
      reads this
      ensures r <==> selectedServiceType == "" || |selectedServiceTypeDetails| == 0
    {
      !(selectedServiceType != "") || |selectedServiceTypeDetails| == 0
    }

    /** The form is valid exactly when "next" is enabled. */
    function ValidateForm(): (r: bool)
      reads this
      ensures r <==> selectedServiceType != "" && |selectedServiceTypeDetails| > 0
      ensures r == !IsNextDisabled()
    {
      selectedServiceType != "" && |selectedServiceTypeDetails| > 0
    }

    function GetFormData(): (f: FormData)
      reads this
      ensures f.serviceType == selectedServiceType && f.description == description
      ensures f.details == JoinDetails(selectedServiceTypeDetails)
    {
      FormData(selectedServiceType, JoinDetails(selectedServiceTypeDetails), description)
    }

    method HandleServiceTypeValueChange(value: string)
      modifies this`selectedServiceTypeValue
      ensures selectedServiceTypeValue == value
    {
      selectedServiceTypeValue := value;
    }

    /** Reloads the dependent detail options: `fetched` is the query's answer
        (`None` when it failed); an empty type clears the options without a query. */
    method LoadDependentPicklistValues(fetched: Option<seq<PicklistOption>>)
      modifies this`serviceDetailPicklistOptions
      ensures selectedServiceType == "" ==> serviceDetailPicklistOptions == []
      ensures selectedServiceType != "" && fetched.Some? ==> serviceDetailPicklistOptions == fetched.value
      ensures selectedServiceType != "" && fetched.None? ==> serviceDetailPicklistOptions == old(serviceDetailPicklistOptions)
    {
      if selectedServiceType != "" {
        if fetched.Some? {
          serviceDetailPicklistOptions := fetched.value;
        }
      } else {
        serviceDetailPicklistOptions := [];
      }
    }

    /** A new service type empties the detail selection and reloads the options. */
    method HandleServiceTypeChange(value: string, fetched: Option<seq<PicklistOption>>)
      requires Valid()
      modifies this`selectedServiceType, this`selectedServiceTypeDetails, this`serviceDetailPicklistOptions
      ensures Valid()
      ensures selectedServiceType == value && selectedServiceTypeDetails == []
      ensures value == "" ==> serviceDetailPicklistOptions == []
      ensures value != "" && fetched.Some? ==> serviceDetailPicklistOptions == fetched.value
      ensures value != "" && fetched.None? ==> serviceDetailPicklistOptions == old(serviceDetailPicklistOptions)
    {
      selectedServiceType := value;
      selectedServiceTypeDetails := [];
      LoadDependentPicklistValues(fetched);
    }

    /** Checking adds the value once; unchecking removes it; the selection stays a set. */
    method HandleDetailChange(value: string, isChecked: bool)
      requires Valid()
      modifies this`selectedServiceTypeDetails
      ensures Valid()
      ensures isChecked ==> selectedServiceTypeDetails == WithDetail(old(selectedServiceTypeDetails), value)
      ensures !isChecked ==> selectedServiceTypeDetails == WithoutDetail(old(selectedServiceTypeDetails), value)
    {
      if isChecked {
        if value !in selectedServiceTypeDetails {
          selectedServiceTypeDetails := selectedServiceTypeDetails + [value];
        }
      } else {
        selectedServiceTypeDetails := WithoutDetail(selectedServiceTypeDetails, value);
      }
    }

    method HandleDescriptionChange(value: string)
      modifies this`description
      ensures description == value
    {
      description := value;
    }

    /** "Previous": the `previous` event for the wizard; nothing here changes. */
    method HandlePrevious() returns (eventName: string)
      ensures eventName == PreviousEventName
    {
      eventName := PreviousEventName;
    }

    /** The step-3 payload: the detail string is the one `GetFormData` builds, and
        splitting it on ';' gives back the selection. */
    method HandleNext() returns (d: Step3Detail)
      ensures d.step == 4
      ensures d.serviceReservationData.serviceTypeValue == Some(selectedServiceTypeValue)
      ensures d.serviceReservationData.serviceType == Some(selectedServiceType)
      ensures d.serviceReservationData.description == Some(description)
      ensures d.serviceReservationData.details == Some(GetFormData().details)
      ensures |selectedServiceTypeDetails| > 0 && (forall i :: 0 <= i < |selectedServiceTypeDetails| ==> ';' !in selectedServiceTypeDetails[i])
              ==> Split(d.serviceReservationData.details.value, ';') == selectedServiceTypeDetails
    {
      var data := ServiceData(Some(selectedServiceTypeValue), Some(selectedServiceType),
                              Some(JoinDetails(selectedServiceTypeDetails)), Some(description));
      if |selectedServiceTypeDetails| > 0 && (forall i :: 0 <= i < |selectedServiceTypeDetails| ==> ';' !in selectedServiceTypeDetails[i]) {
        DetailsRoundTrip(selectedServiceTypeDetails);
      }
      return Step3Detail(data, 4);
    }
  }
}
