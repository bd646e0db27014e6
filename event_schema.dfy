/**
 * `eventFormSchema`: the event form's fields with their length limits, and
 * the empty form the page starts from.
 */
module EventSchema {
  import opened Wrappers
  import opened ZodChecks

  datatype EventField = Title | Description | Date | Place | Category

  /** The event form; `image` is any value, or absent. */
  datatype EventFormData<Image> = EventFormData(title: string, description: string, date: string,
    place: string, category: string, image: Option<Image>)

  /** The issues of a form, field by field in the schema's order. */
  function EventIssues<Image>(f: EventFormData<Image>): seq<Issue<EventField>> {
    MinLength(Title, f.title, 1, "Title is required") + MaxLength(Title, f.title, 100, "Title must be less than 100 characters")
    + MinLength(Description, f.description, 1, "Description is required")
    + MaxLength(Description, f.description, 500, "Description must be less than 500 characters")
    + MinLength(Date, f.date, 1, "Date is required")
    + MinLength(Place, f.place, 1, "Place is required")
    + MinLength(Category, f.category, 1, "Category is required")
  }

  predicate ValidEventForm<Image>(f: EventFormData<Image>) {
    EventIssues(f) == []
  }

  /**
   * A form is valid exactly when the title has 1 to 100 characters, the
   * description 1 to 500, and the date, place and category are non-empty.
   */
  lemma ValidEventFormIff<Image>(f: EventFormData<Image>)
    ensures ValidEventForm(f) <==>
      (1 <= |f.title| <= 100 && 1 <= |f.description| <= 500 && |f.date| >= 1 && |f.place| >= 1 && |f.category| >= 1)
  {
  }

  /** Each issue is attached to the field whose check failed. */
  lemma EventIssuesBelongToFailingFields<Image>(f: EventFormData<Image>, i: Issue<EventField>)
    requires i in EventIssues(f)
    ensures i.path == Title ==> !(1 <= |f.title| <= 100)
    ensures i.path == Description ==> !(1 <= |f.description| <= 500)
    ensures i.path == Date ==> f.date == []
    ensures i.path == Place ==> f.place == []
    ensures i.path == Category ==> f.category == []
  {
    var title := MinLength(Title, f.title, 1, "Title is required") + MaxLength(Title, f.title, 100, "Title must be less than 100 characters");
    var description := MinLength(Description, f.description, 1, "Description is required")
      + MaxLength(Description, f.description, 500, "Description must be less than 500 characters");
    var date := MinLength(Date, f.date, 1, "Date is required");
    var place := MinLength(Place, f.place, 1, "Place is required");
    var category := MinLength(Category, f.category, 1, "Category is required");
    assert EventIssues(f) == title + description + date + place + category;
    if i in title {
      assert i.path == Title && !(1 <= |f.title| <= 100);
    } else if i in description {
      assert i.path == Description && !(1 <= |f.description| <= 500);
    } else if i in date {
      assert i.path == Date && f.date == [];
    } else if i in place {
      assert i.path == Place && f.place == [];
    } else {
      assert i in category;
    }
  }

  /** The image is not validated: replacing it never changes the issues. */
  lemma ImageUnconstrained<Image>(f: EventFormData<Image>, image: Option<Image>)
    ensures EventIssues(f.(image := image)) == EventIssues(f)
  {
  }

  /** `defaultEventFormData`: every field empty and no image. */
  function DefaultEventFormData<Image>(): (f: EventFormData<Image>)
    ensures f.image.None?
  {
    EventFormData("", "", "", "", "", None)
  }

  /** The empty form fails, with a "required" issue for each of the five text fields. */
  lemma DefaultEventFormRejected<Image>()
    ensures !ValidEventForm(DefaultEventFormData<Image>())
    ensures EventIssues(DefaultEventFormData<Image>()) == [
      Issue(Title, "Title is required"), Issue(Description, "Description is required"), Issue(Date, "Date is required"),
      Issue(Place, "Place is required"), Issue(Category, "Category is required")]
  {
  }
}
