/** The `/chat` page around the chat box: ad slots, forum statistics and the online label. */
module ChatPage {
  import opened Wrappers
  import opened Seqs
  import opened Text

  datatype Ad = Ad(id: string, adType: string, isActive: bool)

  predicate IsActiveAd(a: Ad) {
    a.isActive
  }

  /** `ads.filter(ad => ad.isActive)`, applied to every fetched list before it is stored. */
  function ActiveAds(ads: seq<Ad>): seq<Ad> {
    Filter(ads, IsActiveAd)
  }

  function AdsenseAds(ads: seq<Ad>): seq<Ad> {
    Take(Filter(ads, (a: Ad) => a.adType == "adsense"), 3)
  }

  function CustomAds(ads: seq<Ad>): seq<Ad> {
    Take(Filter(ads, (a: Ad) => a.adType == "custom"), 3)
  }

  /** The mobile strip: `customAds.slice(0, 2)`. */
  function MobileAds(ads: seq<Ad>): seq<Ad> {
    Take(CustomAds(ads), 2)
  }

  /**
   * Each slot group shows the first ads of its type, in order: at most 3 AdSense ads,
   * at most 3 custom ads, and on mobile the first 2 of those custom ads.
   */
  lemma AdSlotsSpec(ads: seq<Ad>)
    ensures AdsenseAds(ads) <= Filter(ads, (a: Ad) => a.adType == "adsense") && |AdsenseAds(ads)| <= 3
    ensures CustomAds(ads) <= Filter(ads, (a: Ad) => a.adType == "custom") && |CustomAds(ads)| <= 3
    ensures forall a :: a in AdsenseAds(ads) ==> a in ads && a.adType == "adsense"
    ensures forall a :: a in CustomAds(ads) ==> a in ads && a.adType == "custom"
    ensures MobileAds(ads) <= CustomAds(ads) && |MobileAds(ads)| <= 2
    ensures MobileAds(ads) == Take(Filter(ads, (a: Ad) => a.adType == "custom"), 2)
  {
    var adsense := Filter(ads, (a: Ad) => a.adType == "adsense");
    var custom := Filter(ads, (a: Ad) => a.adType == "custom");
    forall a | a in AdsenseAds(ads) ensures a in ads && a.adType == "adsense" {
      var i :| 0 <= i < |AdsenseAds(ads)| && AdsenseAds(ads)[i] == a;
      assert a == adsense[i];
    }
    forall a | a in CustomAds(ads) ensures a in ads && a.adType == "custom" {
      var i :| 0 <= i < |CustomAds(ads)| && CustomAds(ads)[i] == a;
      assert a == custom[i];
    }
  }

  /** The page state the handlers write. */
  datatype PageState = PageState(ads: seq<Ad>, loading: bool, onlineCount: int, totalMembers: int, totalMessages: int)

  /** The combined result of the ads and statistics requests. */
  datatype InitialResponse = InitialFailed | InitialReceived(ads: seq<Ad>, totalUsers: int, totalChats: int)

  /** An `updateChatStats` payload. */
  datatype ChatStats = ChatStats(onlineCount: int, totalUsers: int, totalMessages: int)

  const Initial := PageState([], true, 0, 0, 0)

  /** `fetchData`: without a token only loading ends; a failure too; a success also stores active ads and totals. */
  function AfterInitialFetch(s: PageState, token: Option<string>, response: InitialResponse): (t: PageState)
    ensures !t.loading && t.onlineCount == s.onlineCount
    ensures !Truthy(token) || response.InitialFailed? ==> t == s.(loading := false)
    ensures Truthy(token) && response.InitialReceived? ==>
      t.ads == ActiveAds(response.ads) && t.totalMembers == response.totalUsers &&
      t.totalMessages == response.totalChats
  {
    if !Truthy(token) then s.(loading := false)
    else match response
      case InitialFailed => s.(loading := false)
      case InitialReceived(ads, users, chats) =>
        s.(ads := ActiveAds(ads), totalMembers := users, totalMessages := chats, loading := false)
  }

  /** `adsUpdated`: the refetched list replaces the stored ads, again keeping only active ones. */
  function AfterAdsUpdated(s: PageState, fetched: seq<Ad>): (t: PageState)
    ensures t.ads == ActiveAds(fetched)
    ensures t.(ads := s.ads) == s
  {
    s.(ads := ActiveAds(fetched))
  }

  /** `updateChatStats` overwrites the three counters and nothing else. */
  function AfterStats(s: PageState, stats: ChatStats): (t: PageState)
    ensures t.onlineCount == stats.onlineCount && t.totalMembers == stats.totalUsers
    ensures t.totalMessages == stats.totalMessages
    ensures t.ads == s.ads && t.loading == s.loading
  {
    s.(onlineCount := stats.onlineCount, totalMembers := stats.totalUsers, totalMessages := stats.totalMessages)
  }

  predicate OnlyActiveAds(s: PageState) {
    forall a :: a in s.ads ==> a.isActive
  }

  /** Every way the page stores ads keeps only active ones. */
  lemma AdsStayActive(s: PageState, token: Option<string>, response: InitialResponse, fetched: seq<Ad>, stats: ChatStats)
    requires OnlyActiveAds(s)
    ensures OnlyActiveAds(AfterInitialFetch(s, token, response))
    ensures OnlyActiveAds(AfterAdsUpdated(s, fetched))
    ensures OnlyActiveAds(AfterStats(s, stats))
  {
    if response.InitialReceived? {
      forall a | a in ActiveAds(response.ads) ensures a.isActive {
        FilterMembership(response.ads, IsActiveAd, a);
      }
    }
    forall a | a in ActiveAds(fetched) ensures a.isActive {
      FilterMembership(fetched, IsActiveAd, a);
    }
  }

  /** The header badge: the online count when positive, else `Live Chat`. */
  function OnlineLabel(onlineCount: int): (badge: string)
    ensures onlineCount > 0 ==> badge == NatToString(onlineCount) + " Online"
    ensures onlineCount <= 0 ==> badge == "Live Chat"
  {
    if onlineCount > 0 then IntToString(onlineCount) + " Online" else "Live Chat"
  }

  /** A positive count always reads as a count, never as the `Live Chat` fallback. */
  lemma OnlineLabelDistinguishes(onlineCount: int)
    ensures OnlineLabel(onlineCount) == "Live Chat" <==> onlineCount <= 0
  {
    if onlineCount > 0 {
      var badge := OnlineLabel(onlineCount);
      assert IsAsciiDigit(badge[0]);
      assert !IsAsciiDigit("Live Chat"[0]);
    }
  }
}
