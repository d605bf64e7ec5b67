/** The records the pages receive from the backend as JSON (server.py,
    models User, BloodRequest, MedicalFacility and DonationHistory). Optional
    fields are the ones the backend declares `Optional` or that a page reads
    with `?.`. */
module Domain {
  import opened Wrappers

  datatype User = User(
    id: string,
    email: string,
    full_name: string,
    role: string,
    blood_type: Option<string>,
    phone: Option<string>,
    location: Option<string>,
    city: Option<string>,
    state: Option<string>,
    available_to_donate: Option<bool>,
    created_at: string)

  /** A blood request; `created_at` is a time in milliseconds since the epoch. */
  datatype BloodRequest = BloodRequest(
    id: string,
    patient_name: string,
    blood_type: string,
    units_needed: int,
    urgency: string,
    hospital_name: string,
    city: string,
    state: string,
    contact_phone: string,
    contact_email: Option<string>,
    reason: Option<string>,
    status: string,
    requested_by: string,
    requested_by_name: string,
    created_at: int,
    fulfilled_at: Option<int>)

  datatype Facility = Facility(
    id: string,
    name: string,
    facility_type: string,
    address: string,
    city: string,
    state: string,
    phone: string,
    email: Option<string>,
    services: seq<string>,
    blood_types_available: seq<string>)

  datatype Donation = Donation(
    id: string,
    donor_id: string,
    donor_name: string,
    blood_request_id: Option<string>,
    blood_type: string,
    units_donated: int,
    donation_date: string,
    hospital_name: string,
    city: string)
}
