/**
 * The records the application passes around: the user's profile, a chat
 * message with its optional grounding sources, and a saved conversation.
 */
module Types {
  import opened Wrappers

  /** The free-text profile collected on the information page. The personality
      tone is kept as the string the form produced; its select box offers only
      "motivational", "calm", "funny", "friendly" and "realistic". */
  datatype Profile = Profile(
    age: string,
    gender: string,
    goals: string,
    fears: string,
    personality: string,
    philosophy: string,
    hobbies: string,
    roleModels: string,
    pastExperiences: string,
    upcomingEvents: string)

  /** The signed-in user. After login only `name` and `email` are set: the other
      fields of the record are absent (`profile == None`) until the information
      page is submitted. */
  datatype UserData = UserData(name: string, email: string, profile: Option<Profile>)

  datatype GroundingSource = GroundingSource(uri: string, title: string)

  datatype Sender = User | Ai

  /** The optional thumbs-up/down marker; an absent and a null marker are both `NoFeedback`. */
  datatype Feedback = NoFeedback | Up | Down

  datatype ChatMessage = ChatMessage(
    sender: Sender,
    text: string,
    timestamp: string,
    sources: Option<seq<GroundingSource>>,
    feedback: Feedback)

  datatype ChatHistoryItem = ChatHistoryItem(
    id: string,
    title: string,
    messages: seq<ChatMessage>,
    date: string)

  datatype Theme = NeonBlue | VioletFlux | CyberCrimson
}
