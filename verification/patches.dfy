/** TypeScript `Partial<T>` updates and the object spread `{ ...record, ...patch }`
    that applies them. A patch field is `None` when the key is absent and
    `Some(v)` when it is present; for a field that is itself optional, a present
    key may carry `undefined` (`Some(None)`), which clears the field. */
module Patches {
  import opened Wrappers
  import opened Types

  /** One key of a spread: a present key overrides the previous value. */
  function Over<T>(prev: T, key: Option<T>): T {
    key.GetOr(prev)
  }

  datatype ClientPatch = ClientPatch(
    id: Option<string>,
    name: Option<string>,
    phone: Option<string>,
    category: Option<Category>,
    lastMessage: Option<string>,
    lastActivity: Option<Timestamp>,
    status: Option<ClientStatus>,
    campaignSource: Option<Option<string>>,
    notes: Option<Option<string>>)
  {
    /** `{ ...c, ...this }` */
    function ApplyTo(c: Client): Client {
      Client(Over(c.id, id), Over(c.name, name), Over(c.phone, phone), Over(c.category, category),
             Over(c.lastMessage, lastMessage), Over(c.lastActivity, lastActivity), Over(c.status, status),
             Over(c.campaignSource, campaignSource), Over(c.notes, notes))
    }
  }

  const NoClientChange := ClientPatch(None, None, None, None, None, None, None, None, None)

  datatype CampaignPatch = CampaignPatch(
    id: Option<string>,
    name: Option<string>,
    description: Option<string>,
    targetCategory: Option<Category>,
    steps: Option<seq<CampaignStep>>,
    scheduledDate: Option<Option<Timestamp>>,
    status: Option<CampaignStatus>,
    sentCount: Option<int>,
    openCount: Option<int>,
    hasRemarketingFlow: Option<Option<bool>>,
    remarketingFlowId: Option<Option<string>>)
  {
    /** `{ ...c, ...this }` */
    function ApplyTo(c: Campaign): Campaign {
      Campaign(Over(c.id, id), Over(c.name, name), Over(c.description, description),
               Over(c.targetCategory, targetCategory), Over(c.steps, steps),
               Over(c.scheduledDate, scheduledDate), Over(c.status, status),
               Over(c.sentCount, sentCount), Over(c.openCount, openCount),
               Over(c.hasRemarketingFlow, hasRemarketingFlow),
               Over(c.remarketingFlowId, remarketingFlowId))
    }
  }

  const NoCampaignChange := CampaignPatch(None, None, None, None, None, None, None, None, None, None, None)

  datatype RemarketingFlowPatch = RemarketingFlowPatch(
    id: Option<string>,
    name: Option<string>,
    description: Option<string>,
    isActive: Option<bool>,
    steps: Option<seq<FlowStep>>,
    triggers: Option<seq<string>>,
    abandonmentTime: Option<Option<int>>,
    campaignId: Option<string>,
    targetCategory: Option<Category>)
  {
    /** `{ ...f, ...this }` */
    function ApplyTo(f: RemarketingFlow): RemarketingFlow {
      RemarketingFlow(Over(f.id, id), Over(f.name, name), Over(f.description, description),
                      Over(f.isActive, isActive), Over(f.steps, steps), Over(f.triggers, triggers),
                      Over(f.abandonmentTime, abandonmentTime), Over(f.campaignId, campaignId),
                      Over(f.targetCategory, targetCategory))
    }
  }

  const NoRemarketingFlowChange := RemarketingFlowPatch(None, None, None, None, None, None, None, None, None)

  datatype BotFlowPatch = BotFlowPatch(
    id: Option<string>,
    name: Option<string>,
    description: Option<string>,
    isActive: Option<bool>,
    steps: Option<seq<FlowStep>>,
    triggers: Option<seq<string>>,
    abandonmentTime: Option<Option<int>>)
  {
    /** `{ ...f, ...this }` */
    function ApplyTo(f: BotFlow): BotFlow {
      BotFlow(Over(f.id, id), Over(f.name, name), Over(f.description, description),
              Over(f.isActive, isActive), Over(f.steps, steps), Over(f.triggers, triggers),
              Over(f.abandonmentTime, abandonmentTime))
    }
  }

  datatype CampaignStepPatch = CampaignStepPatch(
    id: Option<string>,
    kind: Option<CampaignStepType>,
    content: Option<string>,
    mediaUrl: Option<Option<string>>,
    fileName: Option<Option<string>>,
    buttons: Option<Option<seq<Button>>>,
    delay: Option<Option<int>>,
    description: Option<Option<string>>)
  {
    /** `{ ...s, ...this }` */
    function ApplyTo(s: CampaignStep): CampaignStep {
      CampaignStep(Over(s.id, id), Over(s.kind, kind), Over(s.content, content),
                   Over(s.mediaUrl, mediaUrl), Over(s.fileName, fileName), Over(s.buttons, buttons),
                   Over(s.delay, delay), Over(s.description, description))
    }
  }

  const NoCampaignStepChange := CampaignStepPatch(None, None, None, None, None, None, None, None)

  datatype FlowStepPatch = FlowStepPatch(
    id: Option<string>,
    kind: Option<FlowStepType>,
    content: Option<string>,
    mediaUrl: Option<Option<string>>,
    fileName: Option<Option<string>>,
    options: Option<Option<seq<StepOption>>>,
    nextStep: Option<Option<string>>,
    aiProductName: Option<Option<string>>,
    delay: Option<Option<int>>)
  {
    /** `{ ...s, ...this }` */
    function ApplyTo(s: FlowStep): FlowStep {
      FlowStep(Over(s.id, id), Over(s.kind, kind), Over(s.content, content),
               Over(s.mediaUrl, mediaUrl), Over(s.fileName, fileName), Over(s.options, options),
               Over(s.nextStep, nextStep), Over(s.aiProductName, aiProductName), Over(s.delay, delay))
    }
  }

  const NoFlowStepChange := FlowStepPatch(None, None, None, None, None, None, None, None, None)

  datatype BotConfigPatch = BotConfigPatch(
    attendantName: Option<string>,
    attendantPhoto: Option<Option<string>>,
    chatBackground: Option<Option<string>>,
    welcomeAudio: Option<bool>,
    autoResponse: Option<bool>,
    allowClientAudio: Option<bool>,
    allowClientVideo: Option<bool>,
    allowClientImages: Option<bool>)
  {
    /** `{ ...c, ...this }` */
    function ApplyTo(c: BotConfig): BotConfig {
      BotConfig(Over(c.attendantName, attendantName), Over(c.attendantPhoto, attendantPhoto),
                Over(c.chatBackground, chatBackground), Over(c.welcomeAudio, welcomeAudio),
                Over(c.autoResponse, autoResponse), Over(c.allowClientAudio, allowClientAudio),
                Over(c.allowClientVideo, allowClientVideo), Over(c.allowClientImages, allowClientImages))
    }
  }

  /** The patch carrying every key of `c`, as the configuration screen passes
      its whole edited copy. */
  function WholeConfig(c: BotConfig): BotConfigPatch {
    BotConfigPatch(Some(c.attendantName), Some(c.attendantPhoto), Some(c.chatBackground),
                   Some(c.welcomeAudio), Some(c.autoResponse), Some(c.allowClientAudio),
                   Some(c.allowClientVideo), Some(c.allowClientImages))
  }

  /** A patch with no keys leaves a record as it was. */
  lemma EmptyPatchesChangeNothing(c: Client, k: Campaign, f: RemarketingFlow, s: CampaignStep, t: FlowStep)
    ensures NoClientChange.ApplyTo(c) == c
    ensures NoCampaignChange.ApplyTo(k) == k
    ensures NoRemarketingFlowChange.ApplyTo(f) == f
    ensures NoCampaignStepChange.ApplyTo(s) == s
    ensures NoFlowStepChange.ApplyTo(t) == t
  {
  }

  /** Applying the same patch twice is applying it once. */
  lemma PatchesIdempotent(p: ClientPatch, c: Client, q: CampaignPatch, k: Campaign,
                          r: RemarketingFlowPatch, f: RemarketingFlow, b: BotConfigPatch, g: BotConfig)
    ensures p.ApplyTo(p.ApplyTo(c)) == p.ApplyTo(c)
    ensures q.ApplyTo(q.ApplyTo(k)) == q.ApplyTo(k)
    ensures r.ApplyTo(r.ApplyTo(f)) == r.ApplyTo(f)
    ensures b.ApplyTo(b.ApplyTo(g)) == b.ApplyTo(g)
  {
  }

  /** Merging a whole configuration replaces the previous one. */
  lemma WholeConfigReplaces(prev: BotConfig, c: BotConfig)
    ensures WholeConfig(c).ApplyTo(prev) == c
  {
  }
}
