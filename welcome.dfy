/**
 Where the welcome card for a member who just joined is delivered. The bot
 tries a direct message first; only if the platform refuses it does it post
 the same card, with a mention of the member, in the guild's system channel,
 and only if the guild has one. Whether the direct message went through is an
 input here, since it is decided by the platform.
 */
module Welcome {
  import opened Wrappers
  import opened Platform

  datatype Delivery =
    | DirectMessage(member: UserId)
    | ChannelPost(channel: ChannelId, mention: UserId)
    | NotSent

  function WelcomeDelivery(member: UserId, dmSucceeded: bool, systemChannel: Option<ChannelId>): (d: Delivery)
    ensures d.DirectMessage? <==> dmSucceeded
    ensures d.DirectMessage? ==> d.member == member
    ensures d.ChannelPost? <==> !dmSucceeded && systemChannel.Some?
    ensures d.ChannelPost? ==> d.channel == systemChannel.value && d.mention == member
    ensures d.NotSent? <==> !dmSucceeded && systemChannel.None?
  {
    if dmSucceeded then DirectMessage(member)
    else match systemChannel
      case Some(channel) => ChannelPost(channel, member)
      case None => NotSent
  }
}
