/** Wizard step 1: shows the logged-in customer and sends their record up. */
module CustomerInfo {
  import opened Js
  import opened ReservationEvents

  /** The customer row the customer query returns. */
  datatype CustomerRecord = CustomerRecord(
    Name: Option<string>, Phone: Option<string>, PersonEmail: Option<string>, Id: Option<string>)

  /** What "next" produces: an error toast, or the `nextstep` payload. */
  datatype NextOutcome = MissingCustomer(toast: Toast) | Next(detail: Step1Detail)

  const NoCustomerToast := Toast("고객 정보 없음", "고객 정보를 불러오지 못했습니다.", "error")

  class CustomerInfo {
    var name: Option<string>
    var phone: Option<string>
    var email: Option<string>
    var accountId: Option<string>

    constructor ()
      ensures name == None && phone == None && email == None && accountId == None
    {
      name, phone, email, accountId := None, None, None, None;
    }

    /** Data fills the four fields from Name, Phone, PersonEmail and Id; an error
        (or no answer yet) leaves them as they were. */
    method WiredCustomer(r: WireResult<CustomerRecord>)
      modifies this`name, this`phone, this`email, this`accountId
      ensures r.WireData? ==> name == r.data.Name && phone == r.data.Phone
                              && email == r.data.PersonEmail && accountId == r.data.Id
      ensures !r.WireData? ==> name == old(name) && phone == old(phone)
                               && email == old(email) && accountId == old(accountId)
    {
      if r.WireData? {
        name := r.data.Name;
        phone := r.data.Phone;
        email := r.data.PersonEmail;
        accountId := r.data.Id;
      }
    }

    /** Without an account id only an error toast is raised; with one the payload
        carries exactly the component's four fields. */
    method HandleNext() returns (out: NextOutcome)
      ensures out.Next? <==> Truthy(accountId)
      ensures out.MissingCustomer? ==> out.toast.variant == "error"
      ensures out.Next? ==> out.detail.customerInfo == CustomerData(name, phone, email, accountId)
    {
      if !Truthy(accountId) {
        return MissingCustomer(NoCustomerToast);
      }
      return Next(Step1Detail(CustomerData(name, phone, email, accountId)));
    }
  }
}
