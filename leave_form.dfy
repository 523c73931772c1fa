/**
 * The leave application form shared by the employee and HR-manager pages:
 * its validation schema, the identity it pre-fills from, and its state.
 */
module LeaveForm {
  import opened Wrappers
  import opened Storage
  import opened Api

  /** The body posted to the submission endpoint. */
  datatype LeaveData = LeaveData(employeeCode: string, fromDate: string, toDate: string, leaveReason: string)

  /** The empty form, as it starts and as `reset()` leaves it. */
  const Blank := LeaveData("", "", "", "")

  const MinReason := 10
  const MaxReason := 500

  datatype FieldError = EmployeeCodeRequired | FromDateRequired | ToDateRequired | ReasonTooShort | ReasonTooLong

  /** apiLeaveSchema: every check the submission fails. */
  function SchemaErrors(d: LeaveData): (errs: set<FieldError>)
    ensures errs == {} <==>
      d.employeeCode != "" && d.fromDate != "" && d.toDate != "" && MinReason <= |d.leaveReason| <= MaxReason
    ensures EmployeeCodeRequired in errs <==> d.employeeCode == ""
    ensures FromDateRequired in errs <==> d.fromDate == ""
    ensures ToDateRequired in errs <==> d.toDate == ""
    ensures ReasonTooShort in errs <==> |d.leaveReason| < MinReason
    ensures ReasonTooLong in errs <==> |d.leaveReason| > MaxReason
  {
    (if |d.employeeCode| < 1 then {EmployeeCodeRequired} else {})
    + (if |d.fromDate| < 1 then {FromDateRequired} else {})
    + (if |d.toDate| < 1 then {ToDateRequired} else {})
    + (if |d.leaveReason| < MinReason then {ReasonTooShort} else {})
    + (if |d.leaveReason| > MaxReason then {ReasonTooLong} else {})
  }

  /** A reason of `n` characters. */
  function Reason(n: nat): (s: string)
    ensures |s| == n
  {
    seq(n, _ => 'x')
  }

  /** The reason bounds are inclusive: 9 characters fail, 10 and 500 pass, 501 fail. */
  lemma ReasonBoundaries(code: string, from: string, to: string)
    requires code != "" && from != "" && to != ""
    ensures SchemaErrors(LeaveData(code, from, to, Reason(9))) == {ReasonTooShort}
    ensures SchemaErrors(LeaveData(code, from, to, Reason(10))) == {}
    ensures SchemaErrors(LeaveData(code, from, to, Reason(500))) == {}
    ensures SchemaErrors(LeaveData(code, from, to, Reason(501))) == {ReasonTooLong}
  {
  }

  /**
   * The schema imposes no order on the dates: once both are filled in, which
   * dates they are (a "from" after the "to" included) changes no check.
   */
  lemma DatesUnordered(d: LeaveData, fromDate: string, toDate: string)
    requires d.fromDate != "" && d.toDate != "" && fromDate != "" && toDate != ""
    ensures SchemaErrors(d.(fromDate := fromDate, toDate := toDate)) == SchemaErrors(d)
  {
    var a, b := SchemaErrors(d.(fromDate := fromDate, toDate := toDate)), SchemaErrors(d);
    assert forall e :: e in a <==> e in b;
  }

  /**
   * getUserData: the identity parsed from the `user` slot, else from the
   * `hr-manager` slot; null when both are absent or the chosen one fails to parse.
   */
  function GetUserData(m: Slots, parse: Parser): (u: Option<Identity>)
    ensures Present(m, User) ==> u == parse(m["user"])
    ensures !Present(m, User) && Present(m, HrManager) ==> u == parse(m["hr-manager"])
    ensures !Present(m, User) && !Present(m, HrManager) ==> u == None
  {
    var userData := Or(GetItem(m, "user"), GetItem(m, "hr-manager"));
    if Truthy(userData) then parse(userData.value) else None
  }

  /** The partner, manager and hr slots play no part in getUserData. */
  lemma GetUserDataIgnoresOtherSlots(m: Slots, m': Slots, parse: Parser)
    requires GetItem(m, "user") == GetItem(m', "user")
    requires GetItem(m, "hr-manager") == GetItem(m', "hr-manager")
    ensures GetUserData(m, parse) == GetUserData(m', parse)
  {
  }

  /** Which of the page's callbacks the settled submission invokes. */
  datatype Notified = OnSuccessCalled | OnErrorCalled | NoneCalled

  /**
   * The form's values as react-hook-form holds them, and whether the
   * submission mutation is in flight (`isPending`).
   */
  class LeaveFormState {
    var values: LeaveData
    var isPending: bool

    constructor ()
      ensures values == Blank && !isPending
    {
      values := Blank;
      isPending := false;
    }

    /** The visible inputs: the dates and the reason, as typed. */
    method Enter(fromDate: string, toDate: string, leaveReason: string)
      modifies this`values
      ensures values == old(values).(fromDate := fromDate, toDate := toDate, leaveReason := leaveReason)
    {
      values := values.(fromDate := fromDate, toDate := toDate, leaveReason := leaveReason);
    }

    /** The effect that copies the identity's `Employee Code` into the hidden field, when it is set. */
    method PrefillEmployeeCode(user: Option<Identity>)
      modifies this`values
      ensures user.Some? && Truthy(user.value.Field("Employee Code")) ==>
        values == old(values).(employeeCode := user.value.fields["Employee Code"])
      ensures !(user.Some? && Truthy(user.value.Field("Employee Code"))) ==> values == old(values)
    {
      if user.Some? && Truthy(user.value.Field("Employee Code")) {
        values := values.(employeeCode := user.value.fields["Employee Code"]);
      }
    }

    /**
     * handleSubmit(onSubmit): the body handed to the mutation, sent only when
     * the schema accepts the values and no submission is in flight (the
     * button is disabled while one is); sending one puts it in flight.
     */
    method Submit() returns (body: Option<LeaveData>)
      modifies this`isPending
      ensures body.Some? <==> !old(isPending) && SchemaErrors(values) == {}
      ensures body.Some? ==> body.value == values
      ensures isPending == (old(isPending) || body.Some?)
    {
      if !isPending && SchemaErrors(values) == {} {
        body := Some(values);
        isPending := true;
      } else {
        body := None;
      }
    }

    /**
     * The mutation settles: it is no longer in flight; on success the form is
     * reset and onSuccess is called; on error only onError.
     */
    method Settle(response: Response<string>, hasOnSuccess: bool, hasOnError: bool) returns (notified: Notified)
      modifies this
      ensures !isPending
      ensures response.Ok? ==> values == Blank && notified == (if hasOnSuccess then OnSuccessCalled else NoneCalled)
      ensures response.Err? ==> values == old(values) && notified == (if hasOnError then OnErrorCalled else NoneCalled)
    {
      isPending := false;
      match response
      case Ok(_) =>
        values := Blank;
        notified := if hasOnSuccess then OnSuccessCalled else NoneCalled;
      case Err(_) =>
        notified := if hasOnError then OnErrorCalled else NoneCalled;
    }
  }
}
