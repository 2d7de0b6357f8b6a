/**
 * The dashboard news card: three items picked from a fixed pool of ten by
 * the day of the month, each with a read-aloud button whose icon shows
 * while the item is being spoken.
 */
module DailyUpdates {
  import opened Options

  datatype News = News(title: string, desc: string)

  /** A picked item: the pool entry with its position in today's list. */
  datatype Item = Item(id: nat, title: string, desc: string)

  const NewsPool: seq<News> := [
    News("PM Kisan Installment", "The next installment of ₹2,000 will be credited to farmers' bank accounts next week. Check your status."),
    News("Free Ration Extended", "The central government has extended the free ration scheme for another 5 years. Collect from your local shop."),
    News("Solar Pump Subsidy", "Apply for PM-KUSUM scheme to get 60% subsidy on solar water pumps. Applications closing soon."),
    News("Kisan Credit Card Update", "New interest rates for KCC loans announced. Farmers can now get loans at 4% interest for up to ₹3 Lakhs."),
    News("Crop Insurance Alert", "Last date to pay premium for Kharif crops insurance is approaching. Protect your crops against rain damage."),
    News("Mandi Price Update", "Wheat prices have increased by ₹50 per quintal in your local mandi today. Best time to sell."),
    News("Heavy Rain Warning", "IMD predicts heavy rainfall in your district for the next 3 days. Please secure your harvested crops."),
    News("Sukanya Samriddhi Yojana", "Interest rates for girl child savings scheme increased to 8.2%. Open an account at your nearest post office."),
    News("Aadhaar Seeding Mandatory", "Link your Aadhaar with your bank account before the 30th to continue receiving gas subsidies."),
    News("Nano Urea Available", "IFFCO Nano Urea is now available at all cooperative societies. It increases yield by 8%.")
  ]

  /** The three pool positions picked on day `day` from a pool of `n`. */
  function PickIndices(day: nat, n: nat): (r: seq<nat>)
    requires n > 0
    ensures |r| == 3
    ensures forall k :: 0 <= k < 3 ==> r[k] < n
    ensures r == [day % n, (day + 3) % n, (day + 7) % n]
  {
    [day % n, (day + 3) % n, (day + 7) % n]
  }

  /** With the pool of ten the three picks are always different items.
      The offsets 3 and 7 keep them apart only because ten divides none of
      3, 4 and 7; a pool of seven would make the first and third coincide. */
  lemma PicksDistinct(day: nat)
    ensures var r := PickIndices(day, |NewsPool|);
      r[0] != r[1] && r[1] != r[2] && r[0] != r[2]
  {
    var d := day % 10;
    assert (day + 3) % 10 == (d + 3) % 10;
    assert (day + 7) % 10 == (d + 7) % 10;
  }

  /** Today's list: the picked items with ids 1, 2 and 3. */
  function TodaysNews(day: nat): (r: seq<Item>)
    ensures |r| == 3
    ensures forall k :: 0 <= k < 3 ==>
      var n := NewsPool[PickIndices(day, |NewsPool|)[k]];
      r[k] == Item(k + 1, n.title, n.desc)
  {
    var idx := PickIndices(day, |NewsPool|);
    seq(3, k requires 0 <= k < 3 => Item(k + 1, NewsPool[idx[k]].title, NewsPool[idx[k]].desc))
  }

  /** How long the icon shows "playing", in milliseconds. */
  function SpeechDuration(item: Item): nat
  {
    |item.desc| * 80
  }

  class Card {
    var todaysNews: seq<Item>
    var playingId: Option<nat>

    /** Mounting on day `day` of the month. */
    constructor (day: nat)
      ensures todaysNews == TodaysNews(day) && playingId == None
    {
      todaysNews := TodaysNews(day);
      playingId := None;
    }

    /** `handleRead(item)`: reading the item already playing stops it;
        any other item starts playing and a reset timer of the returned
        length is set. */
    method HandleRead(item: Item) returns (timer: Option<nat>)
      modifies this`playingId
      ensures old(playingId) == Some(item.id) ==> playingId == None && timer == None
      ensures old(playingId) != Some(item.id) ==>
        playingId == Some(item.id) && timer == Some(|item.desc| * 80)
    {
      if playingId == Some(item.id) {
        playingId := None;
        timer := None;
      } else {
        playingId := Some(item.id);
        timer := Some(SpeechDuration(item));
      }
    }

    /** A reset timer firing: it clears whatever is playing, even an item
        started after the one it was set for. */
    method ResetTimerFires()
      modifies this`playingId
      ensures playingId == None
    {
      playingId := None;
    }
  }
}
