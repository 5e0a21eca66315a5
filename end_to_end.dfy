/** One submission followed by two visits of the recommendations page, on concrete responses. */
module EndToEnd {
  import opened Movies
  import opened HomePage
  import BrowserStorage
  import RecommendationsPage

  /** A script of one "still computing" reply and then the two results, in rank order. */
  method AliceGetsTwoFilmsOnce()
  {
    var first := Item("m1", MovieData("img-1", "First", 1999), 4.5);
    var second := Item("m2", MovieData("img-2", "Second", 2004), 4.25);
    var storage := new BrowserStorage.LocalStorage();
    var home := new Home(storage);
    home.SetUsername("alice");

    var submit := SubmitReply(true, SubmitBodyJson(Some("u1"), Some("b1")));
    var script := [PollReply(202, PollBodyUnreadable), PollReply(200, PollBodyJson(ResultArray([first, second])))];
    assert Classify(script[0]).Pending?;
    PollLoopEndsAt(script, 2);
    var request, consumed := home.HandleSubmit(submit, script);
    ParamsRoundTrip(home.CurrentForm());
    assert FormOf(request) == Some(Form("alice", 500000, -1, false));
    assert consumed == 2;
    assert home.polls == [JobIds(Some("b1"), Some("u1")), JobIds(Some("b1"), Some("u1"))];
    assert home.isLoading && home.navigatedTo == Some(RECOMMENDATIONS_ROUTE);

    var page := new RecommendationsPage.Recommendations(storage);
    page.MountEffect();
    assert page.recommendations == [first, second];
    assert page.Rendered()[0] == RecommendationsPage.CardOf(first);
    assert RecommendationsPage.CardOf(first).imageSrc == "https://a.ltrbxd.com/resized/img-1.jpg";

    var again := new RecommendationsPage.Recommendations(storage);
    again.MountEffect();
    assert again.recommendations == [];
  }
}
