/**
 * The plan's group chat screen: the text and image send paths, the chat
 * listener it starts, and how a message bubble is laid out.
 */
module GroupChat {
  import opened Wrappers
  import opened Models
  import opened Store
  import opened DataManagerModel
  import opened Cloud

  /** What a bubble shows, apart from its content. */
  datatype BubbleLayout = BubbleLayout(trailing: bool, showsAvatar: bool, showsSenderName: bool, filled: bool)

  /**
   * `ChatBubble`: the user's own messages sit on the trailing side in a
   * filled bubble; anyone else's show an avatar and the sender's name.
   */
  function Bubble(m: ChatMessage, currentUid: Option<string>): (b: BubbleLayout)
    ensures b.showsSenderName <==> !IsMe(m, currentUid)
    ensures b.showsAvatar <==> !IsMe(m, currentUid)
    ensures b.trailing <==> IsMe(m, currentUid)
    ensures b.filled <==> IsMe(m, currentUid)
  {
    var me := IsMe(m, currentUid);
    BubbleLayout(me, !me, !me, me)
  }

  /** Nobody's messages are their own while signed out, so every bubble names its sender. */
  lemma SignedOutSeesAllNames(m: ChatMessage)
    ensures Bubble(m, None).showsSenderName && !Bubble(m, None).trailing
  {
  }

  class GroupChatScreen {
    const plan: Plan
    const cloud: CloudDataManager
    const manager: DataManager
    var messageText: string
    var inputImage: Option<Image>

    constructor (plan: Plan, cloud: CloudDataManager, manager: DataManager)
      ensures this.plan == plan && this.cloud == cloud && this.manager == manager
      ensures messageText == "" && inputImage == None && !SendButtonVisible()
    {
      this.plan := plan;
      this.cloud := cloud;
      this.manager := manager;
      messageText := "";
      inputImage := None;
    }

    /** The send button is in the input bar exactly while text is typed. */
    predicate SendButtonVisible()
      reads this
    {
      messageText != ""
    }

    method TypeText(t: string)
      modifies this
      ensures messageText == t && inputImage == old(inputImage)
      ensures SendButtonVisible() <==> t != ""
    {
      messageText := t;
    }

    /** `onAppear`: follow this plan's messages when it has an id. */
    method OnAppear()
      modifies cloud
      ensures cloud.chatPlanId == if plan.id.Some? then plan.id else old(cloud.chatPlanId)
      ensures cloud.store == old(cloud.store) && cloud.currentChatMessages == old(cloud.currentChatMessages)
      ensures cloud.currentUid == old(cloud.currentUid)
      ensures cloud.locations == old(cloud.locations) && cloud.hiddenSpotIds == old(cloud.hiddenSpotIds)
      ensures cloud.blockedUserIds == old(cloud.blockedUserIds) && cloud.activePlans == old(cloud.activePlans)
    {
      if plan.id.Some? {
        cloud.ListenToChat(plan.id.value);
      }
    }

    /**
     * `sendMessage()`: with text typed and a plan id, send exactly the typed
     * text and clear the field; otherwise do nothing.
     */
    method Send(now: int, messageId: Uuid, online: bool)
      modifies this, cloud
      ensures var sends := old(messageText) != "" && plan.id.Some?;
        && messageText == (if sends then "" else old(messageText))
        && cloud.store == if sends && cloud.currentUid.Some? && online
             then MessageAdded(old(cloud.store), plan.id.value,
                    ChatMessage(Some(messageId.uuidString), cloud.currentUid.value, manager.userName, old(messageText), now, None))
             else old(cloud.store)
      ensures inputImage == old(inputImage)
      ensures cloud.currentUid == old(cloud.currentUid) && cloud.chatPlanId == old(cloud.chatPlanId)
      ensures cloud.currentChatMessages == old(cloud.currentChatMessages)
      ensures cloud.locations == old(cloud.locations) && cloud.hiddenSpotIds == old(cloud.hiddenSpotIds)
      ensures cloud.blockedUserIds == old(cloud.blockedUserIds) && cloud.activePlans == old(cloud.activePlans)
    {
      if messageText == "" || plan.id.None? {
        return;
      }
      cloud.SendMessage(plan.id.value, messageText, manager.userName, now, messageId, online);
      messageText := "";
    }

    /** The picker's `onChange`: a picked image is sent when the plan has an id. */
    method OnImagePicked(image: Option<Image>, now: int, messageId: Uuid, online: bool)
      modifies this, cloud
      ensures inputImage == image && messageText == old(messageText)
      ensures cloud.store == if image.Some? && plan.id.Some? && cloud.currentUid.Some?
                                && image.value.jpegBase64.Some? && online
        then MessageAdded(old(cloud.store), plan.id.value,
               ChatMessage(Some(messageId.uuidString), cloud.currentUid.value, manager.userName,
                           "Sent an image", now, image.value.jpegBase64))
        else old(cloud.store)
      ensures cloud.currentUid == old(cloud.currentUid) && cloud.chatPlanId == old(cloud.chatPlanId)
      ensures cloud.currentChatMessages == old(cloud.currentChatMessages)
      ensures cloud.locations == old(cloud.locations) && cloud.hiddenSpotIds == old(cloud.hiddenSpotIds)
      ensures cloud.blockedUserIds == old(cloud.blockedUserIds) && cloud.activePlans == old(cloud.activePlans)
    {
      inputImage := image;
      if image.Some? && plan.id.Some? {
        cloud.SendImageMessage(plan.id.value, image.value, manager.userName, now, messageId, online);
      }
    }
  }

  /** Sending twice in a row sends once: the first send clears the text. */
  method SendTwiceSendsOnce(plan: Plan, me: string, text: string, now: int, a: Uuid, b: Uuid)
    returns (sent: seq<ChatMessage>)
    requires plan.id.Some? && text != ""
    ensures sent == [ChatMessage(Some(a.uuidString), me, "Kurt Gavin", text, now, None)]
  {
    var cloud := new CloudDataManager(Store(map[], map[], map[], map[]), Some(me));
    var manager := new DataManager([a, a, a, a, a, a], a, now);
    var screen := new GroupChatScreen(plan, cloud, manager);
    screen.TypeText(text);
    screen.Send(now, a, true);
    screen.Send(now, b, true);
    sent := cloud.store.messages[plan.id.value];
  }
}
