/** Naming conventions shared by the scraper and the data set builder (src/utils.py). */
module Utils {

  /** Name of the scraper's info file inside its storage directory. */
  const ScraperInfoFileName: string := "apps"

  /** Name of the scraper's log file inside its storage directory. */
  const ScraperLogFileName: string := "logs"

  /** The fixed prefix of every icon file name. */
  const IconPrefix: string := "icon_"

  /**
   * `get_app_icon_name`: the icon file of an app is the prefix followed by the app id,
   * so the name is five characters longer and dropping the prefix gives the id back.
   */
  function IconName(appId: string): (name: string)
    ensures |name| == |appId| + |IconPrefix| == |appId| + 5
    ensures name[..|IconPrefix|] == IconPrefix
    ensures name[|IconPrefix|..] == appId
  {
    IconPrefix + appId
  }

  /** Distinct app ids never share an icon file. */
  lemma IconNameInjective(a: string, b: string)
    ensures IconName(a) == IconName(b) <==> a == b
  {
    if IconName(a) == IconName(b) {
      assert a == IconName(a)[|IconPrefix|..] == IconName(b)[|IconPrefix|..] == b;
    }
  }

  /** The example of the data set builder's tests. */
  lemma IconNameExample()
    ensures IconName("com.example") == "icon_com.example"
  {
  }
}
