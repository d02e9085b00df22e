/** The read-only configuration the core consults: the skill vocabularies, the job-category
    keyword table (kept in its declaration order) and the upload limits. */
module Config {

  const MaxFileSizeMB: nat := 10

  const AllowedExtensions: seq<string> := [".pdf", ".docx", ".doc", ".txt"]

  const TechnicalSkills: seq<string> := [
    "python", "java", "javascript", "c++", "sql", "html", "css", "react",
    "node.js", "django", "flask", "spring", "mongodb", "postgresql",
    "machine learning", "data science", "tensorflow", "pytorch", "scikit-learn",
    "pandas", "numpy", "matplotlib", "seaborn", "tableau", "power bi",
    "aws", "azure", "docker", "kubernetes", "git", "jenkins"
  ]

  const SoftSkills: seq<string> := [
    "leadership", "communication", "teamwork", "problem solving",
    "critical thinking", "time management", "adaptability", "creativity",
    "project management", "analytical thinking", "collaboration"
  ]

  /** The default candidate list of skill extraction: technical skills, then soft skills. */
  const DefaultSkills: seq<string> := TechnicalSkills + SoftSkills

  /** Job categories with their keywords, in the table's declaration order. */
  const JobCategories: seq<(string, seq<string>)> := [
    ("data_science", ["data scientist", "machine learning engineer", "data analyst"]),
    ("software_development", ["software engineer", "developer", "programmer"]),
    ("web_development", ["web developer", "frontend developer", "backend developer"]),
    ("product_management", ["product manager", "product owner", "business analyst"]),
    ("marketing", ["marketing manager", "digital marketing", "content marketing"])
  ]
}
