/** The panel's records and enumerations (`src/types/index.ts`). String unions
    become enumerations; each has its wire key (`Key`) and the partial inverse
    (`...OfKey`) used where the source looks labels up by raw string. Dates are
    integer millisecond timestamps. */
module Types {
  import opened Wrappers

  /** A date, as milliseconds since the epoch. */
  type Timestamp = int

  /** The purchase-funnel category a client is in. */
  datatype Category = NotBought | BoughtCorreios | BoughtLogz | CompletedPurchases {
    function Key(): string {
      match this
      case NotBought => "not_bought"
      case BoughtCorreios => "bought_correios"
      case BoughtLogz => "bought_logz"
      case CompletedPurchases => "completed_purchases"
    }
  }

  /** The category whose key is `s`, if any. */
  function CategoryOfKey(s: string): (r: Option<Category>)
    ensures r.Some? ==> r.value.Key() == s
    ensures forall c: Category :: c.Key() == s ==> r == Some(c)
  {
    if s == "not_bought" then Some(NotBought)
    else if s == "bought_correios" then Some(BoughtCorreios)
    else if s == "bought_logz" then Some(BoughtLogz)
    else if s == "completed_purchases" then Some(CompletedPurchases)
    else None
  }

  datatype ClientStatus = Active | Abandoned

  datatype Client = Client(
    id: string,
    name: string,
    phone: string,
    category: Category,
    lastMessage: string,
    lastActivity: Timestamp,
    status: ClientStatus,
    campaignSource: Option<string>,
    notes: Option<string>)

  datatype MessageType = Text | Audio | Image | Video | File

  datatype Sender = FromClient | FromBot | FromAdmin

  datatype Message = Message(
    id: string,
    clientId: string,
    content: string,
    kind: MessageType,
    sender: Sender,
    timestamp: Timestamp,
    mediaUrl: Option<string>,
    fileName: Option<string>,
    fileSize: Option<int>,
    isRead: bool,
    audioDuration: Option<int>)

  /** The step kinds of bot and remarketing flows. */
  datatype FlowStepType = Message | Audio | Image | Video | AiResponse | Menu {
    function Key(): string {
      match this
      case Message => "message"
      case Audio => "audio"
      case Image => "image"
      case Video => "video"
      case AiResponse => "ai_response"
      case Menu => "menu"
    }
  }

  /** The flow step kind whose key is `s`, if any. */
  function FlowStepTypeOfKey(s: string): (r: Option<FlowStepType>)
    ensures r.Some? ==> r.value.Key() == s
    ensures forall k: FlowStepType :: k.Key() == s ==> r == Some(k)
  {
    if s == "message" then Some(FlowStepType.Message)
    else if s == "audio" then Some(FlowStepType.Audio)
    else if s == "image" then Some(FlowStepType.Image)
    else if s == "video" then Some(FlowStepType.Video)
    else if s == "ai_response" then Some(AiResponse)
    else if s == "menu" then Some(Menu)
    else None
  }

  /** A menu option of a flow step. */
  datatype StepOption = StepOption(id: string, text: string, nextStep: Option<string>)

  datatype FlowStep = FlowStep(
    id: string,
    kind: FlowStepType,
    content: string,
    mediaUrl: Option<string>,
    fileName: Option<string>,
    options: Option<seq<StepOption>>,
    nextStep: Option<string>,
    aiProductName: Option<string>,
    delay: Option<int>)

  datatype BotFlow = BotFlow(
    id: string,
    name: string,
    description: string,
    isActive: bool,
    steps: seq<FlowStep>,
    triggers: seq<string>,
    abandonmentTime: Option<int>)

  /** A flow answering replies to one campaign; `campaignId` is its owner and
      `targetCategory` a copy of the owner's target taken when it was linked. */
  datatype RemarketingFlow = RemarketingFlow(
    id: string,
    name: string,
    description: string,
    isActive: bool,
    steps: seq<FlowStep>,
    triggers: seq<string>,
    abandonmentTime: Option<int>,
    campaignId: string,
    targetCategory: Category)

  /** The step kinds of campaigns: a different enumeration from flow steps. */
  datatype CampaignStepType = Message | Audio | Image | Video | Pdf | Buttons {
    function Key(): string {
      match this
      case Message => "message"
      case Audio => "audio"
      case Image => "image"
      case Video => "video"
      case Pdf => "pdf"
      case Buttons => "buttons"
    }
  }

  /** The campaign step kind whose key is `s`, if any. */
  function CampaignStepTypeOfKey(s: string): (r: Option<CampaignStepType>)
    ensures r.Some? ==> r.value.Key() == s
    ensures forall k: CampaignStepType :: k.Key() == s ==> r == Some(k)
  {
    if s == "message" then Some(CampaignStepType.Message)
    else if s == "audio" then Some(CampaignStepType.Audio)
    else if s == "image" then Some(CampaignStepType.Image)
    else if s == "video" then Some(CampaignStepType.Video)
    else if s == "pdf" then Some(Pdf)
    else if s == "buttons" then Some(Buttons)
    else None
  }

  /** A reply button of a campaign step. */
  datatype Button = Button(id: string, text: string)

  datatype CampaignStep = CampaignStep(
    id: string,
    kind: CampaignStepType,
    content: string,
    mediaUrl: Option<string>,
    fileName: Option<string>,
    buttons: Option<seq<Button>>,
    delay: Option<int>,
    description: Option<string>)

  datatype CampaignStatus = Draft | Scheduled | Sent

  /** An outbound campaign; `remarketingFlowId` is the back-reference to the
      flow that answers it. */
  datatype Campaign = Campaign(
    id: string,
    name: string,
    description: string,
    targetCategory: Category,
    steps: seq<CampaignStep>,
    scheduledDate: Option<Timestamp>,
    status: CampaignStatus,
    sentCount: int,
    openCount: int,
    hasRemarketingFlow: Option<bool>,
    remarketingFlowId: Option<string>)

  datatype BotConfig = BotConfig(
    attendantName: string,
    attendantPhoto: Option<string>,
    chatBackground: Option<string>,
    welcomeAudio: bool,
    autoResponse: bool,
    allowClientAudio: bool,
    allowClientVideo: bool,
    allowClientImages: bool)

  /** Derived figures; the two rates are percentages. */
  datatype Statistics = Statistics(
    totalConversations: int,
    activeConversations: int,
    abandonedConversations: int,
    responseRate: real,
    conversionRate: real,
    dailyMessages: int)

  datatype WhatsAppContact = WhatsAppContact(
    id: string,
    name: string,
    phone: string,
    profilePic: Option<string>,
    lastSeen: Option<Timestamp>,
    isOnline: bool)

  datatype WhatsAppMessageType = Text | Audio | Image | Video | Document

  datatype WhatsAppSender = Contact | Me

  datatype DeliveryStatus = Sent | Delivered | Read

  datatype WhatsAppMessage = WhatsAppMessage(
    id: string,
    contactId: string,
    content: string,
    kind: WhatsAppMessageType,
    sender: WhatsAppSender,
    timestamp: Timestamp,
    mediaUrl: Option<string>,
    fileName: Option<string>,
    isRead: bool,
    messageStatus: DeliveryStatus)
}
