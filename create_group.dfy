/**
 * The create-group form: its initial state, the handlers that edit it
 * (the member limit is parsed with a fallback of 20), and the create
 * button that builds the new study group.
 */
module CreateGroup {
  import opened Wrappers
  import opened Model
  import opened KotlinText

  /** The member limit a new form starts with, and the fallback for unparsable text. */
  const DefaultMaxMembers: int := 20

  /** The creator id the screen writes into every group. */
  const FixedCreatorId: int := 1

  /** `it.toIntOrNull() ?: 20`: the text's Int value, or 20 when it has none. */
  function MaxMembersOf(text: string): (n: int)
    ensures IsInt(n)
    ensures ParseInt(text).Some? ==> n == ParseInt(text).value
    ensures ParseInt(text).None? ==> n == DefaultMaxMembers
  {
    ParseInt(text).GetOr(DefaultMaxMembers)
  }

  /**
   * The field shows `maxMembers.toString()`: leaving that text as it is
   * keeps the limit, and typing any Int's text sets exactly that Int,
   * zero and negatives included; text with no Int value gives 20.
   */
  lemma MaxMembersOfText(n: int, text: string)
    requires IsInt(n)
    ensures MaxMembersOf(IntText(n)) == n
    ensures (forall i :: 0 <= i < |text| ==> !IsDigit(text[i])) ==> MaxMembersOf(text) == DefaultMaxMembers
  {
    ParseIntText(n);
    if text != [] && forall i :: 0 <= i < |text| ==> !IsDigit(text[i]) {
      if text[0] == '-' || text[0] == '+' {
        if |text| > 1 {
          ParseIntRejectsNonDigit(text, 1);
        }
      } else {
        ParseIntRejectsNonDigit(text, 0);
      }
    }
  }

  /** Text whose value overflows `Int` has no `Int` value, so the limit falls back to 20. */
  lemma MaxMembersOfOverflow(n: int)
    requires !IsInt(n)
    ensures MaxMembersOf(IntText(n)) == DefaultMaxMembers
  {
    ParseIntTextOutOfRange(n);
  }

  lemma MaxMembersExamples()
    ensures MaxMembersOf("0") == 0
    ensures MaxMembersOf("-5") == -5
    ensures MaxMembersOf("") == DefaultMaxMembers
    ensures MaxMembersOf("abc") == DefaultMaxMembers
    ensures MaxMembersOf("020") == 20
    ensures MaxMembersOf("+7") == 7
    ensures MaxMembersOf("-020") == -20
    ensures MaxMembersOf("-0") == 0
  {
    assert "-020"[1..] == "0" + "20";
    assert "-0"[1..] == "0";
    ParseIntLeadingZero("20");
    assert "0" + "20" == "020";
    ParseIntPlusSign("7");
    assert "+" + "7" == "+7";
  }

  /** The group the create button builds from the form. */
  function NewGroup(groupName: string, description: string, topic: string, maxMembers: int, isPublic: bool): (g: StudyGroup)
    ensures g.creatorId == FixedCreatorId
    ensures g.groupName == groupName && g.maxMembers == maxMembers && g.isPublic == isPublic
    ensures g.description == None <==> IsBlank(description)
    ensures g.description.Some? ==> g.description.value == description
    ensures g.topic == None <==> IsBlank(topic)
    ensures g.topic.Some? ==> g.topic.value == topic
  {
    StudyGroup(
      creatorId := FixedCreatorId,
      groupName := groupName,
      description := BlankToNull(description),
      topic := BlankToNull(topic),
      maxMembers := maxMembers,
      isPublic := isPublic)
  }

  /** The form's fields, as one value. */
  datatype FormState = FormState(
    groupName: string,
    description: string,
    topic: string,
    maxMembers: int,
    isPublic: bool)

  /** What the create button does: insert the group, then go back. */
  datatype SaveEffect = InsertGroup(group: StudyGroup) | PopBackStack

  /** The form's `mutableStateOf` fields and their handlers. */
  class GroupForm {
    var groupName: string
    var description: string
    var topic: string
    var maxMembers: int
    var isPublic: bool

    /** `maxMembers` is a Kotlin `Int`. */
    ghost predicate Valid()
      reads this
    {
      IsInt(maxMembers)
    }

    function State(): FormState
      reads this
    {
      FormState(groupName, description, topic, maxMembers, isPublic)
    }

    /** The initial form: empty texts, a limit of 20 members, public. */
    constructor ()
      ensures Valid()
      ensures State() == FormState("", "", "", DefaultMaxMembers, true)
    {
      groupName := "";
      description := "";
      topic := "";
      maxMembers := DefaultMaxMembers;
      isPublic := true;
    }

    /** The name field's `onValueChange`. */
    method EditGroupName(text: string)
      requires Valid()
      modifies this
      ensures Valid() && State() == old(State()).(groupName := text)
    {
      groupName := text;
    }

    /** The description field's `onValueChange`. */
    method EditDescription(text: string)
      requires Valid()
      modifies this
      ensures Valid() && State() == old(State()).(description := text)
    {
      description := text;
    }

    /** The topic field's `onValueChange`. */
    method EditTopic(text: string)
      requires Valid()
      modifies this
      ensures Valid() && State() == old(State()).(topic := text)
    {
      topic := text;
    }

    /** The member-limit field's `onValueChange`: no range check beyond `Int`. */
    method EditMaxMembers(text: string)
      requires Valid()
      modifies this
      ensures Valid() && State() == old(State()).(maxMembers := MaxMembersOf(text))
    {
      maxMembers := MaxMembersOf(text);
    }

    /** The public switch's `onCheckedChange`. */
    method SetPublic(value: bool)
      requires Valid()
      modifies this
      ensures Valid() && State() == old(State()).(isPublic := value)
    {
      isPublic := value;
    }

    /**
     * The create button: nothing at all for a blank name; otherwise one
     * insert of the new group, then one back-navigation.
     */
    method Save() returns (effects: seq<SaveEffect>)
      requires Valid()
      ensures IsBlank(groupName) ==> effects == []
      ensures !IsBlank(groupName) ==> |effects| == 2 && effects[1] == PopBackStack
      ensures !IsBlank(groupName) ==>
                effects[0] == InsertGroup(NewGroup(groupName, description, topic, maxMembers, isPublic))
    {
      effects := [];
      if !IsBlank(groupName) {
        var group := NewGroup(groupName, description, topic, maxMembers, isPublic);
        effects := effects + [InsertGroup(group)];
        effects := effects + [PopBackStack];
      }
    }
  }
}
