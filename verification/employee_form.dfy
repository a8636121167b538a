/** The "add employee" form (AddEmployeeModal.tsx): eight form fields and a
    submit handler that validates, emits a payload with defaults, and resets. */
module EmployeeForm {
  import opened Types
  import opened Text

  /** The avatar used when no picture was uploaded. */
  const DefaultAvatar: string :=
    "https://images.unsplash.com/photo-1633332755192-727a05c4013d?auto=format&fit=crop&w=150&q=80"

  /** The object handed to `onAdd`. */
  datatype EmployeePayload = EmployeePayload(
    name: string,
    email: string,
    role: UserRole,
    jobTitle: string,
    dob: string,
    gender: Gender,
    experience: string,
    avatar: string,
    joinedDate: string,
    projectsJoined: int)

  /** The callbacks the form invokes, in the order it invokes them. */
  datatype Event = Add(payload: EmployeePayload) | Close

  /** The payload for the current fields at clock reading `nowIso` (an ISO-8601
      timestamp): the entered fields unchanged, the uploaded picture or the
      default avatar, no projects joined yet, and the date part of the clock. */
  function BuildPayload(name: string, email: string, role: UserRole, jobTitle: string,
                        dob: string, gender: Gender, experience: string,
                        imagePreview: Option<string>, nowIso: string): (p: EmployeePayload)
    ensures p.name == name && p.email == email && p.role == role && p.jobTitle == jobTitle
    ensures p.dob == dob && p.gender == gender && p.experience == experience
    ensures p.avatar == if imagePreview.Some? && imagePreview.value != "" then imagePreview.value
                        else DefaultAvatar
    ensures p.projectsJoined == 0
    ensures 'T' !in p.joinedDate && |p.joinedDate| <= |nowIso| && p.joinedDate == nowIso[..|p.joinedDate|]
    ensures |p.joinedDate| < |nowIso| ==> nowIso[|p.joinedDate|] == 'T'
  {
    var avatar := if imagePreview.Some? && imagePreview.value != "" then imagePreview.value
                  else DefaultAvatar;
    EmployeePayload(name, email, role, jobTitle, dob, gender, experience, avatar,
                    TakeUntil(nowIso, 'T'), 0)
  }

  /** For a timestamp `date + "T" + time` the joined date is exactly `date`. */
  lemma JoinedDateIsDatePart(date: string, time: string, name: string, email: string,
                             role: UserRole, jobTitle: string, dob: string, gender: Gender,
                             experience: string, imagePreview: Option<string>)
    requires 'T' !in date
    ensures BuildPayload(name, email, role, jobTitle, dob, gender, experience, imagePreview,
                         date + "T" + time).joinedDate == date
  {
    TakeUntilSeparator(date, 'T', time);
  }

  class AddEmployeeModal {
    var name: string
    var email: string
    var role: UserRole
    var jobTitle: string
    var dob: string
    var gender: Gender
    var experience: string
    var imagePreview: Option<string>

    /** Every field blank, role USER and gender Male. */
    predicate IsReset()
      reads this
    {
      name == "" && email == "" && role == USER && jobTitle == "" && dob == ""
      && gender == Male && experience == "" && imagePreview == None
    }

    constructor ()
      ensures IsReset()
    {
      name, email, jobTitle, dob, experience := "", "", "", "", "";
      role := USER;
      gender := Male;
      imagePreview := None;
    }

    /** handleImageChange, with the chosen file already read as a data URL. */
    method SetImagePreview(dataUrl: string)
      modifies this`imagePreview
      ensures imagePreview == Some(dataUrl)
    {
      imagePreview := Some(dataUrl);
    }

    /** handleSubmit: without a name or an email nothing is emitted and nothing
        changes; otherwise the payload is emitted, the form is reset and then
        closed. */
    method Submit(nowIso: string) returns (events: seq<Event>)
      modifies this
      ensures old(name) == "" || old(email) == "" ==> events == [] && unchanged(this)
      ensures old(name) != "" && old(email) != "" ==>
                events == [Add(BuildPayload(old(name), old(email), old(role), old(jobTitle),
                                            old(dob), old(gender), old(experience),
                                            old(imagePreview), nowIso)), Close]
                && IsReset()
    {
      if name == "" || email == "" {
        return [];
      }
      events := [Add(BuildPayload(name, email, role, jobTitle, dob, gender, experience,
                                  imagePreview, nowIso))];
      name := "";
      email := "";
      role := USER;
      jobTitle := "";
      dob := "";
      gender := Male;
      experience := "";
      imagePreview := None;
      events := events + [Close];
    }
  }
}
